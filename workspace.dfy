/**
  The chapter state of the editor window (`App.tsx`): the chapter list, the
  id of the current chapter, and the handlers that change them. Each handler
  is a pure transform of the list plus a method of `Workspace` that applies
  it; the transforms keep the invariant that ids are distinct and that the
  active chapters are exactly those whose id is current.

  Also here: the word-count formula the window uses for HTML content
  (strip `<...>` spans, split on whitespace runs, drop empty pieces), proved
  equal to the number of maximal non-whitespace runs.
*/
module App {
  import opened Text
  import opened Wrappers
  import Electron
  import Validation

  /** A chapter as the window holds it; `lastModified` is a time in milliseconds. */
  datatype Chapter = Chapter(id: string, number: nat, title: string, content: string,
                             wordCount: nat, isActive: bool, lastModified: int)

  /** The chapter list together with the current chapter id. */
  datatype Selection = Selection(chapters: seq<Chapter>, currentChapterId: string)

  // ---------------------------------------------------------------------------
  // Word count

  /** First index at or after `from` holding `c`. */
  function IndexOfChar(s: string, c: char, from: nat): (r: Option<nat>)
    requires from <= |s|
    ensures r.Some? ==> from <= r.value < |s| && s[r.value] == c
    ensures r.Some? ==> forall i :: from <= i < r.value ==> s[i] != c
    ensures r.None? ==> forall i :: from <= i < |s| ==> s[i] != c
    decreases |s| - from
  {
    if from == |s| then None
    else if s[from] == c then Some(from)
    else IndexOfChar(s, c, from + 1)
  }

  /** `s.replace(/<[^>]*>/g, '')`: from left to right, every `<` that has a
      later `>` is removed together with everything up to the first such `>`;
      a `<` with no later `>` stays. */
  function StripTags(s: string): (r: string)
    ensures |r| <= |s|
    ensures '<' !in s ==> r == s
    ensures '>' !in s ==> r == s
    ensures '>' !in s ==> '>' !in r
    ensures forall i, j :: 0 <= i < j < |r| && r[i] == '<' ==> r[j] != '>'
    decreases |s|
  {
    if s == [] then []
    else if s[0] == '<' && IndexOfChar(s, '>', 1).Some? then
      StripTags(s[IndexOfChar(s, '>', 1).value + 1..])
    else
      var rest := StripTags(s[1..]);
      assert s[0] == '<' ==> '>' !in s[1..] by {
        if s[0] == '<' {
          forall k | 0 <= k < |s[1..]| ensures s[1..][k] != '>' { assert s[1..][k] == s[k + 1]; }
        }
      }
      [s[0]] + rest
  }

  /** Text before the first `<` passes through unchanged. */
  lemma {:induction false} StripTagsKeepsTagFreePrefix(a: string, b: string)
    requires '<' !in a
    ensures StripTags(a + b) == a + StripTags(b)
    decreases |a|
  {
    if a == [] {
      assert a + b == b;
    } else {
      PlainHeadSplit(a, b);
      StripTagsKeepsTagFreePrefix(a[1..], b);
      StripTagsOfPlainHead(a + b);
      AppendAssoc([a[0]], a[1..], StripTags(b));
      assert [a[0]] + a[1..] == a;
    }
  }

  lemma PlainHeadSplit(a: string, b: string)
    requires a != [] && '<' !in a
    ensures (a + b)[0] == a[0] != '<'
    ensures (a + b)[1..] == a[1..] + b
    ensures '<' !in a[1..]
  {
    assert (a + b)[0] == a[0];
    assert (a + b)[1..] == a[1..] + b;
    forall k | 0 <= k < |a[1..]| ensures a[1..][k] != '<' { assert a[1..][k] == a[k + 1]; }
  }

  lemma StripTagsOfPlainHead(s: string)
    requires s != [] && s[0] != '<'
    ensures StripTags(s) == [s[0]] + StripTags(s[1..])
  {
  }

  /** A `<`, a run without `>`, and the closing `>` vanish together. */
  lemma StripTagsDropsTag(t: string, b: string)
    requires '>' !in t
    ensures StripTags(['<'] + t + ['>'] + b) == StripTags(b)
  {
    var s := ['<'] + t + ['>'] + b;
    assert s[|t| + 1] == '>';
    assert forall i :: 1 <= i <= |t| ==> s[i] != '>' by {
      forall i | 1 <= i <= |t| ensures s[i] != '>' { assert s[i] == t[i - 1]; }
    }
    var found := IndexOfChar(s, '>', 1);
    assert found == Some(|t| + 1);
    assert s[|t| + 2..] == b;
  }

  /** Index of the first whitespace character of `s`, or `|s|` if none. */
  function FirstWhitespace(s: string): (k: nat)
    ensures k <= |s| && (k < |s| ==> IsWhitespace(s[k]))
    ensures forall i :: 0 <= i < k ==> !IsWhitespace(s[i])
  {
    if s == [] then 0
    else if IsWhitespace(s[0]) then 0
    else 1 + FirstWhitespace(s[1..])
  }

  /** `s.split(/\s+/)`: the pieces between maximal whitespace runs; a leading
      or trailing run yields an empty piece, and "" yields [""]. The pieces hold
      no whitespace and, joined by single spaces, give `s` with each maximal
      whitespace run collapsed to one space; together these fix the pieces
      completely: they are the runs of `s` in order. */
  function SplitOnWhitespace(s: string): (r: seq<string>)
    ensures |r| >= 1
    ensures forall i :: 0 <= i < |r| ==> WhitespaceFree(r[i])
    ensures CountNonEmpty(r) == Runs(s)
    ensures Join(r, " ") == Validation.CollapseWhitespace(s)
    decreases |s|
  {
    var k := FirstWhitespace(s);
    if k == |s| then
      RunsOfWord(s);
      TailOfCons(s, []);
      CollapseOfWord(s);
      [s]
    else
      var n := LeadingWhitespace(s[k..]);
      assert n >= 1 by { assert s[k..][0] == s[k]; }
      var rest := SplitOnWhitespace(s[k + n..]);
      RunsStep(s, k, n);
      TailOfCons(s[..k], rest);
      assert WhitespaceFree(s[..k]);
      JoinStep(s, k, n, rest);
      [s[..k]] + rest
  }

  lemma CollapseOfWord(s: string)
    requires forall i :: 0 <= i < |s| ==> !IsWhitespace(s[i])
    ensures Validation.CollapseWhitespace(s) == s
  {
    Validation.CollapseSkipsWord(s, |s|);
    assert s[..|s|] == s && s[|s|..] == [];
  }

  /** The join step of `SplitOnWhitespace`: the word before the first run, one
      space for the run, then the join of the remaining pieces. */
  lemma JoinStep(s: string, k: nat, n: nat, rest: seq<string>)
    requires k < |s| && k + n <= |s| && n == LeadingWhitespace(s[k..])
    requires forall i :: 0 <= i < k ==> !IsWhitespace(s[i])
    requires IsWhitespace(s[k])
    requires |rest| >= 1 && Join(rest, " ") == Validation.CollapseWhitespace(s[k + n..])
    ensures Join([s[..k]] + rest, " ") == Validation.CollapseWhitespace(s)
  {
    TailOfCons(s[..k], rest);
    Validation.CollapseSkipsWord(s, k);
    assert s[k..][0] == s[k];
    assert s[k..][n..] == s[k + n..];
    assert Validation.CollapseWhitespace(s[k..]) == " " + Validation.CollapseWhitespace(s[k + n..]);
    AppendAssoc(s[..k], " ", Validation.CollapseWhitespace(s[k + n..]));
  }

  predicate WhitespaceFree(s: string) {
    forall i :: 0 <= i < |s| ==> !IsWhitespace(s[i])
  }

  /** `pieces.join(sep)`. */
  function Join(pieces: seq<string>, sep: string): string {
    if pieces == [] then []
    else if |pieces| == 1 then pieces[0]
    else pieces[0] + sep + Join(pieces[1..], sep)
  }

  /** `.filter(w => w.length > 0).length`. */
  function CountNonEmpty(pieces: seq<string>): (n: nat)
    ensures n <= |pieces|
  {
    if pieces == [] then 0
    else (if pieces[0] != [] then 1 else 0) + CountNonEmpty(pieces[1..])
  }

  /** The word count the window stores for HTML content (App.tsx lines 186, 192 and 305). */
  function WordCount(html: string): (n: nat)
    ensures n == Runs(StripTags(html))
  {
    CountNonEmpty(SplitOnWhitespace(StripTags(html)))
  }

  /** Reference definition: the number of maximal runs of non-whitespace
      characters in `s`; `afterSpace` says whether a run starting at `s[0]` is new. */
  function RunsFrom(s: string, afterSpace: bool): nat {
    if s == [] then 0
    else if IsWhitespace(s[0]) then RunsFrom(s[1..], true)
    else (if afterSpace then 1 else 0) + RunsFrom(s[1..], false)
  }

  function Runs(s: string): nat { RunsFrom(s, true) }

  lemma {:induction false} RunsSkipWord(s: string, k: nat, b: bool)
    requires 0 < k <= |s|
    requires forall i :: 0 <= i < k ==> !IsWhitespace(s[i])
    ensures RunsFrom(s, b) == (if b then 1 else 0) + RunsFrom(s[k..], false)
  {
    if k > 1 {
      RunsSkipWord(s[1..], k - 1, false);
      assert s[1..][k - 1..] == s[k..];
    }
  }

  lemma {:induction false} RunsSkipSpace(s: string, m: nat, b: bool)
    requires 0 < m <= |s|
    requires forall i :: 0 <= i < m ==> IsWhitespace(s[i])
    ensures RunsFrom(s, b) == RunsFrom(s[m..], true)
  {
    if m > 1 {
      RunsSkipSpace(s[1..], m - 1, true);
      assert s[1..][m - 1..] == s[m..];
    }
  }

  lemma {:induction false} RunsDropTrailingSpace(s: string, k: nat, b: bool)
    requires k <= |s|
    requires forall i :: k <= i < |s| ==> IsWhitespace(s[i])
    ensures RunsFrom(s, b) == RunsFrom(s[..k], b)
    decreases |s|
  {
    if s == [] {
    } else if k == 0 {
      RunsDropTrailingSpace(s[1..], 0, true);
    } else {
      var b' := if IsWhitespace(s[0]) then true else false;
      RunsDropTrailingSpace(s[1..], k - 1, b');
      assert s[..k][1..] == s[1..][..k - 1];
    }
  }

  /** Text without whitespace is one run, or none when it is empty. */
  lemma RunsOfWord(s: string)
    requires FirstWhitespace(s) == |s|
    ensures Runs(s) == if s == [] then 0 else 1
  {
    if s != [] { RunsSkipWord(s, |s|, true); }
  }

  lemma TailOfCons<T>(x: T, r: seq<T>)
    ensures ([x] + r)[1..] == r
  {
  }

  /** The same step for the run count. */
  lemma RunsStep(s: string, k: nat, n: nat)
    requires k == FirstWhitespace(s) < |s| && n == LeadingWhitespace(s[k..])
    requires n >= 1
    ensures Runs(s) == (if k > 0 then 1 else 0) + Runs(s[k + n..])
  {
    var t := s[k..];
    assert t[n..] == s[k + n..];
    assert forall i :: 0 <= i < n ==> IsWhitespace(t[i]);
    if k > 0 {
      RunsSkipWord(s, k, true);
      RunsSkipSpace(t, n, false);
    } else {
      assert t == s;
      RunsSkipSpace(t, n, true);
    }
  }

  /** Text that is empty or only whitespace once tags are removed has no words. */
  lemma WordCountOfBlankText(html: string)
    requires AllWhitespace(StripTags(html))
    ensures WordCount(html) == 0
  {
    RunsDropTrailingSpace(StripTags(html), 0, true);
  }

  /** The count the rich-text editor reports for its plain text
      (RichTextEditor.tsx lines 25-26). */
  function EditorWordCount(text: string): (n: nat)
    ensures n == Runs(text)
  {
    RunsOfTrim(text);
    if Trim(text) == [] then 0 else CountNonEmpty(SplitOnWhitespace(Trim(text)))
  }

  /** Trimming does not change the number of runs. */
  lemma RunsOfTrim(s: string)
    ensures Runs(Trim(s)) == Runs(s)
  {
    var r := Trim(s);
    var l := LeadingWhitespace(s);
    var t := s[l..];
    if l > 0 { RunsSkipSpace(s, l, true); }
    assert forall i :: |r| <= i < |t| ==> IsWhitespace(t[i]) by {
      forall i | |r| <= i < |t| ensures IsWhitespace(t[i]) { assert t[i] == s[l + i]; }
    }
    RunsDropTrailingSpace(t, |r|, true);
    assert t[..|r|] == r;
  }

  /** On text without tags, the window's formula and the editor's agree. */
  lemma WordCountAgreesWithEditor(text: string)
    requires '<' !in text
    ensures WordCount(text) == EditorWordCount(text)
  {
    RunsOfTrim(text);
  }

  // ---------------------------------------------------------------------------
  // Ghost text edits

  /** First index at or after `from` where `pattern` occurs in `s`. */
  function IndexOf(s: string, pattern: string, from: nat): (r: Option<nat>)
    requires from <= |s|
    ensures r.Some? ==> from <= r.value && r.value + |pattern| <= |s| && pattern <= s[r.value..]
    ensures r.Some? ==> forall i :: from <= i < r.value ==> !(pattern <= s[i..])
    ensures r.None? ==> forall i :: from <= i <= |s| ==> !(pattern <= s[i..])
    decreases |s| - from
  {
    if pattern <= s[from..] then Some(from)
    else if from == |s| then None
    else IndexOf(s, pattern, from + 1)
  }

  /** `s.replace(pattern, replacement)` with a string pattern. */
  function ReplaceFirst(s: string, pattern: string, replacement: string): (r: string)
    ensures IndexOf(s, pattern, 0).None? ==> r == s
    ensures IndexOf(s, pattern, 0).Some? ==>
      var i := IndexOf(s, pattern, 0).value;
      r == s[..i] + replacement + s[i + |pattern|..]
  {
    match IndexOf(s, pattern, 0)
    case None => s
    case Some(i) => s[..i] + replacement + s[i + |pattern|..]
  }

  /** Only the first occurrence is replaced: the text before it contains no
      occurrence, and the text after the replacement is left as it was. */
  lemma ReplaceFirstTouchesFirstOccurrence(s: string, pattern: string, replacement: string)
    requires IndexOf(s, pattern, 0).Some?
    ensures var i := IndexOf(s, pattern, 0).value;
      var r := ReplaceFirst(s, pattern, replacement);
      && r[..i] == s[..i]
      && r[i + |replacement|..] == s[i + |pattern|..]
      && forall j :: 0 <= j < i ==> !(pattern <= s[j..])
  {
    var i := IndexOf(s, pattern, 0).value;
    Concat3(s[..i], replacement, s[i + |pattern|..]);
  }

  lemma Concat3<T>(a: seq<T>, b: seq<T>, c: seq<T>)
    ensures (a + b + c)[..|a|] == a && (a + b + c)[|a| + |b|..] == c
  {
  }

  // ---------------------------------------------------------------------------
  // The chapter list

  /** Ids are distinct. */
  predicate DistinctIds(chs: seq<Chapter>) {
    forall i, j :: 0 <= i < j < |chs| ==> chs[i].id != chs[j].id
  }

  /** The active chapters are exactly those whose id is the current one. */
  predicate ActiveIsCurrent(chs: seq<Chapter>, currentId: string) {
    forall i :: 0 <= i < |chs| ==> (chs[i].isActive <==> chs[i].id == currentId)
  }

  predicate WellFormed(chs: seq<Chapter>, currentId: string) {
    DistinctIds(chs) && ActiveIsCurrent(chs, currentId)
  }

  predicate HasId(chs: seq<Chapter>, id: string) {
    exists i :: 0 <= i < |chs| && chs[i].id == id
  }

  /** `chapters.find(ch => ch.id === id)`, as an index. */
  function FindChapter(chs: seq<Chapter>, id: string): (r: Option<nat>)
    ensures r.None? <==> !HasId(chs, id)
    ensures r.Some? ==> r.value < |chs| && chs[r.value].id == id
    ensures r.Some? ==> forall i :: 0 <= i < r.value ==> chs[i].id != id
  {
    if chs == [] then None
    else if chs[0].id == id then Some(0)
    else match FindChapter(chs[1..], id)
      case None =>
        assert !HasId(chs, id) by {
          forall i | 0 <= i < |chs| ensures chs[i].id != id {
            if i > 0 { assert chs[i] == chs[1..][i - 1]; }
          }
        }
        None
      case Some(i) => Some(i + 1)
  }

  /** `currentChapter?.content || ''`. */
  function CurrentContent(chs: seq<Chapter>, currentId: string): (c: string)
    ensures FindChapter(chs, currentId).None? ==> c == ""
    ensures FindChapter(chs, currentId).Some? ==> c == chs[FindChapter(chs, currentId).value].content
  {
    match FindChapter(chs, currentId)
    case None => ""
    case Some(i) => chs[i].content
  }

  /** handleContentChange: the chapters with the current id get the new
      content, word count and time; nothing else changes. */
  function WithContent(chs: seq<Chapter>, currentId: string, html: string, wordCount: nat, now: int): (r: seq<Chapter>)
    ensures |r| == |chs|
    ensures forall i :: 0 <= i < |chs| ==>
      r[i].(content := chs[i].content, wordCount := chs[i].wordCount, lastModified := chs[i].lastModified) == chs[i]
    ensures forall i :: 0 <= i < |chs| && chs[i].id == currentId ==>
      r[i].content == html && r[i].wordCount == wordCount && r[i].lastModified == now
    ensures forall i :: 0 <= i < |chs| && chs[i].id != currentId ==> r[i] == chs[i]
  {
    seq(|chs|, i requires 0 <= i < |chs| =>
      if chs[i].id == currentId then chs[i].(content := html, wordCount := wordCount, lastModified := now)
      else chs[i])
  }

  /** handleChapterSelect on an existing id: that chapter becomes the only
      active one and gets the loaded text; the word counts are not recomputed. */
  function Selected(chs: seq<Chapter>, id: string, diskContent: string): (r: seq<Chapter>)
    ensures |r| == |chs|
    ensures forall i :: 0 <= i < |chs| ==> r[i].isActive == (chs[i].id == id)
    ensures forall i :: 0 <= i < |chs| ==> r[i].content == (if chs[i].id == id then diskContent else chs[i].content)
    ensures forall i :: 0 <= i < |chs| ==> r[i].(isActive := chs[i].isActive, content := chs[i].content) == chs[i]
  {
    seq(|chs|, i requires 0 <= i < |chs| =>
      chs[i].(isActive := chs[i].id == id, content := if chs[i].id == id then diskContent else chs[i].content))
  }

  /** `Math.max(...numbers, 0)`. */
  function MaxNumber(chs: seq<Chapter>): (m: nat)
    ensures forall i :: 0 <= i < |chs| ==> chs[i].number <= m
    ensures chs == [] ==> m == 0
    ensures chs != [] ==> exists i :: 0 <= i < |chs| && chs[i].number == m
  {
    if chs == [] then 0
    else
      var rest := MaxNumber(chs[1..]);
      assert forall i :: 1 <= i < |chs| ==> chs[i] == chs[1..][i - 1];
      if chs[0].number >= rest then chs[0].number else rest
  }

  /** The number handleChapterCreate gives a new chapter. */
  function NextNumber(chs: seq<Chapter>): (n: nat)
    ensures n >= 1
    ensures forall i :: 0 <= i < |chs| ==> chs[i].number < n
    ensures chs == [] ==> n == 1
    ensures chs != [] ==> exists i :: 0 <= i < |chs| && chs[i].number + 1 == n
  {
    MaxNumber(chs) + 1
  }

  function NewChapter(id: string, number: nat, now: int): Chapter {
    Chapter(id, number, "Chapter " + NatToString(number), "", 0, true, now)
  }

  /** handleChapterCreate: every existing chapter is deactivated and the new
      chapter, numbered after all others, is appended. */
  function WithNewChapter(chs: seq<Chapter>, newId: string, now: int): (r: seq<Chapter>)
    ensures |r| == |chs| + 1
    ensures forall i :: 0 <= i < |chs| ==> r[i] == chs[i].(isActive := false)
    ensures r[|chs|] == NewChapter(newId, NextNumber(chs), now)
    ensures forall i :: 0 <= i < |chs| ==> r[i].number < r[|chs|].number
  {
    seq(|chs|, i requires 0 <= i < |chs| => chs[i].(isActive := false)) + [NewChapter(newId, NextNumber(chs), now)]
  }

  /** `chapters.filter(ch => ch.id !== id)`. */
  function Without(chs: seq<Chapter>, id: string): (r: seq<Chapter>)
    ensures |r| <= |chs|
    ensures forall ch :: ch in r <==> ch in chs && ch.id != id
    ensures !HasId(chs, id) ==> r == chs
  {
    if chs == [] then []
    else
      var rest := Without(chs[1..], id);
      HasIdTail(chs, id);
      assert chs == [chs[0]] + chs[1..];
      if chs[0].id == id then rest else [chs[0]] + rest
  }

  lemma HasIdTail(chs: seq<Chapter>, id: string)
    requires chs != []
    ensures HasId(chs[1..], id) ==> HasId(chs, id)
  {
    if HasId(chs[1..], id) {
      var k :| 0 <= k < |chs[1..]| && chs[1..][k].id == id;
      assert chs[k + 1].id == id;
    }
  }

  /** Filtering keeps the order of the survivors: it distributes over concatenation. */
  lemma {:induction false} WithoutAppend(a: seq<Chapter>, b: seq<Chapter>, id: string)
    ensures Without(a + b, id) == Without(a, id) + Without(b, id)
  {
    if a == [] {
      assert a + b == b;
    } else {
      var ab := a + b;
      assert ab[0] == a[0];
      assert ab[1..] == a[1..] + b;
      WithoutAppend(a[1..], b, id);
      if a[0].id == id {
        calc {
          Without(ab, id);
          Without(a[1..] + b, id);
          Without(a[1..], id) + Without(b, id);
          Without(a, id) + Without(b, id);
        }
      } else {
        calc {
          Without(ab, id);
          [a[0]] + Without(a[1..] + b, id);
          [a[0]] + (Without(a[1..], id) + Without(b, id));
          ([a[0]] + Without(a[1..], id)) + Without(b, id);
          Without(a, id) + Without(b, id);
        }
      }
    }
  }

  /** With distinct ids, at most one chapter is removed. */
  lemma {:induction false} WithoutRemovesAtMostOne(chs: seq<Chapter>, id: string)
    requires DistinctIds(chs)
    ensures |Without(chs, id)| >= |chs| - 1
  {
    if chs != [] {
      var tail := chs[1..];
      if chs[0].id == id {
        assert !HasId(tail, id) by {
          forall k | 0 <= k < |tail| ensures tail[k].id != id { assert tail[k] == chs[k + 1]; }
        }
      } else {
        assert DistinctIds(tail) by {
          forall i, j | 0 <= i < j < |tail| ensures tail[i].id != tail[j].id {
            assert tail[i] == chs[i + 1] && tail[j] == chs[j + 1];
          }
        }
        WithoutRemovesAtMostOne(tail, id);
      }
    }
  }

  /** handleChapterDelete. */
  function AfterDelete(chs: seq<Chapter>, currentId: string, id: string): (r: Selection)
    ensures |chs| <= 1 ==> r == Selection(chs, currentId)
    ensures |chs| > 1 && id == currentId && Without(chs, id) != [] ==>
      var f := Without(chs, id);
      && r.currentChapterId == f[0].id
      && |r.chapters| == |f|
      && forall i :: 0 <= i < |f| ==> r.chapters[i] == f[i].(isActive := i == 0)
    ensures |chs| > 1 && !(id == currentId && Without(chs, id) != []) ==>
      r == Selection(Without(chs, id), currentId)
  {
    if |chs| <= 1 then Selection(chs, currentId)
    else
      var f := Without(chs, id);
      if id == currentId && |f| > 0 then
        Selection(seq(|f|, i requires 0 <= i < |f| => f[i].(isActive := i == 0)), f[0].id)
      else Selection(f, currentId)
  }

  /** handleChapterRename: only the title of the matching chapters changes. */
  function WithTitle(chs: seq<Chapter>, id: string, title: string): (r: seq<Chapter>)
    ensures |r| == |chs|
    ensures forall i :: 0 <= i < |chs| ==> r[i].(title := chs[i].title) == chs[i]
    ensures forall i :: 0 <= i < |chs| ==> r[i].title == (if chs[i].id == id then title else chs[i].title)
  {
    seq(|chs|, i requires 0 <= i < |chs| => if chs[i].id == id then chs[i].(title := title) else chs[i])
  }

  /** The single chapter a new novel, or an opened novel without chapters, starts with. */
  function InitialChapter(now: int): (c: Chapter)
    ensures c.id == "1" && c.number == 1 && c.title == "Chapter 1" && c.isActive
    ensures c.content == "" && c.wordCount == 0
  {
    Chapter("1", 1, "Chapter 1", "", 0, true, now)
  }

  /** openExistingNovel: chapters come from the metadata with the number as id,
      only the first active and current, and the first chapter's text loaded;
      empty metadata yields the initial chapter. `parseDate` stands for `new Date(...)`. */
  function OpenedChapters(metas: seq<Electron.ChapterEntry>, parseDate: string -> int,
                          firstContent: string, now: int): (r: Selection)
    ensures metas == [] ==> r == Selection([InitialChapter(now)], "1")
    ensures metas != [] ==> |r.chapters| == |metas| && r.currentChapterId == NatToString(metas[0].number)
    ensures metas != [] ==> forall i :: 0 <= i < |metas| ==>
      var ch := r.chapters[i];
      && ch.id == NatToString(metas[i].number) && ch.number == metas[i].number
      && ch.title == metas[i].title && ch.isActive == (i == 0)
      && ch.lastModified == parseDate(metas[i].lastModified)
    ensures metas != [] ==> forall i :: 0 <= i < |metas| ==>
      if metas[i].number == metas[0].number
      then r.chapters[i].content == firstContent && r.chapters[i].wordCount == WordCount(firstContent)
      else r.chapters[i].content == "" && r.chapters[i].wordCount == 0
  {
    if metas == [] then Selection([InitialChapter(now)], "1")
    else
      var loaded := seq(|metas|, i requires 0 <= i < |metas| =>
        Chapter(NatToString(metas[i].number), metas[i].number, metas[i].title, "", 0, i == 0,
                parseDate(metas[i].lastModified)));
      var firstId := loaded[0].id;
      assert forall i :: 0 <= i < |metas| ==> (loaded[i].id == firstId <==> metas[i].number == metas[0].number) by {
        forall i | 0 <= i < |metas| ensures loaded[i].id == firstId <==> metas[i].number == metas[0].number {
          if loaded[i].id == firstId { NatToStringInjective(metas[i].number, metas[0].number); }
        }
      }
      var withText := seq(|loaded|, i requires 0 <= i < |loaded| =>
        if loaded[i].id == firstId
        then loaded[i].(content := firstContent, wordCount := WordCount(firstContent))
        else loaded[i]);
      Selection(withText, firstId)
  }

  // ---------------------------------------------------------------------------
  // The transforms keep the list well formed

  lemma ContentChangeKeepsWellFormed(chs: seq<Chapter>, currentId: string, html: string, wordCount: nat, now: int)
    requires WellFormed(chs, currentId)
    ensures WellFormed(WithContent(chs, currentId, html, wordCount, now), currentId)
  {
    var r := WithContent(chs, currentId, html, wordCount, now);
    assert forall i :: 0 <= i < |chs| ==> r[i].id == chs[i].id && r[i].isActive == chs[i].isActive;
  }

  /** Selecting an existing chapter makes it the single active and current one. */
  lemma SelectKeepsWellFormed(chs: seq<Chapter>, id: string, diskContent: string)
    requires DistinctIds(chs)
    ensures WellFormed(Selected(chs, id, diskContent), id)
  {
    var r := Selected(chs, id, diskContent);
    assert forall i :: 0 <= i < |chs| ==> r[i].id == chs[i].id;
  }

  /** A new chapter with a fresh id is the single active and current one. */
  lemma CreateKeepsWellFormed(chs: seq<Chapter>, newId: string, now: int)
    requires DistinctIds(chs) && !HasId(chs, newId)
    ensures WellFormed(WithNewChapter(chs, newId, now), newId)
  {
    var r := WithNewChapter(chs, newId, now);
    assert forall i :: 0 <= i < |chs| ==> r[i].id == chs[i].id && !r[i].isActive;
  }

  lemma {:induction false} WithoutKeepsDistinct(chs: seq<Chapter>, id: string)
    requires DistinctIds(chs)
    ensures DistinctIds(Without(chs, id))
  {
    if chs != [] {
      var tail := chs[1..];
      assert DistinctIds(tail) by {
        forall i, j | 0 <= i < j < |tail| ensures tail[i].id != tail[j].id {
          assert tail[i] == chs[i + 1] && tail[j] == chs[j + 1];
        }
      }
      WithoutKeepsDistinct(tail, id);
      var rest := Without(tail, id);
      if chs[0].id != id {
        forall c | c in rest ensures c.id != chs[0].id {
          var k :| 0 <= k < |tail| && tail[k] == c;
          assert tail[k] == chs[k + 1];
        }
        DistinctCons(chs[0], rest);
      }
    }
  }

  /** Putting a chapter with a new id in front keeps the ids distinct. */
  lemma DistinctCons(ch: Chapter, rest: seq<Chapter>)
    requires DistinctIds(rest)
    requires forall c :: c in rest ==> c.id != ch.id
    ensures DistinctIds([ch] + rest)
  {
    var r := [ch] + rest;
    forall i, j | 0 <= i < j < |r| ensures r[i].id != r[j].id {
      assert r[j] == rest[j - 1];
      if i > 0 {
        assert r[i] == rest[i - 1];
      }
    }
  }

  /** Deleting keeps the list well formed and never empties a non-empty list. */
  lemma DeleteKeepsWellFormed(chs: seq<Chapter>, currentId: string, id: string)
    requires WellFormed(chs, currentId)
    ensures var r := AfterDelete(chs, currentId, id);
      WellFormed(r.chapters, r.currentChapterId) && (chs != [] ==> r.chapters != [])
  {
    if |chs| > 1 {
      var f := Without(chs, id);
      WithoutKeepsDistinct(chs, id);
      WithoutRemovesAtMostOne(chs, id);
      var r := AfterDelete(chs, currentId, id);
      if id == currentId {
        forall i | 0 <= i < |f| ensures r.chapters[i].isActive <==> r.chapters[i].id == f[0].id {
          assert r.chapters[i].id == f[i].id;
        }
      } else {
        forall i | 0 <= i < |f| ensures f[i].isActive <==> f[i].id == currentId {
          assert f[i] in chs;
        }
      }
    }
  }

  lemma RenameKeepsWellFormed(chs: seq<Chapter>, currentId: string, id: string, title: string)
    requires WellFormed(chs, currentId)
    ensures WellFormed(WithTitle(chs, id, title), currentId)
  {
    var r := WithTitle(chs, id, title);
    assert forall i :: 0 <= i < |chs| ==> r[i].id == chs[i].id && r[i].isActive == chs[i].isActive;
  }

  /** Opening a novel whose metadata numbers are distinct gives a well-formed,
      non-empty list whose current chapter holds the loaded text. */
  lemma OpenedChaptersWellFormed(metas: seq<Electron.ChapterEntry>, parseDate: string -> int,
                                 firstContent: string, now: int)
    requires Electron.UniqueNumbers(metas)
    ensures var r := OpenedChapters(metas, parseDate, firstContent, now);
      && WellFormed(r.chapters, r.currentChapterId)
      && r.chapters != []
      && CurrentContent(r.chapters, r.currentChapterId) == (if metas == [] then "" else firstContent)
  {
    var r := OpenedChapters(metas, parseDate, firstContent, now);
    if metas != [] {
      forall i, j | 0 <= i < j < |r.chapters| ensures r.chapters[i].id != r.chapters[j].id {
        if r.chapters[i].id == r.chapters[j].id { NatToStringInjective(metas[i].number, metas[j].number); }
      }
      forall i | 0 <= i < |r.chapters| ensures r.chapters[i].isActive <==> r.chapters[i].id == r.currentChapterId {
        if r.chapters[i].id == r.currentChapterId { NatToStringInjective(metas[i].number, metas[0].number); }
      }
      assert FindChapter(r.chapters, r.currentChapterId) == Some(0);
    }
  }

  // ---------------------------------------------------------------------------
  // Stale loader in openExistingNovel

  /** What `loadChapterContent` yields inside openExistingNovel as written: the
      callback was created while the window showed the project-selection
      screen, so it still sees no project and answers ''. */
  function FirstContentAsWritten(projectAtClick: bool, diskContent: string): (c: string)
    ensures !projectAtClick ==> c == ""
    ensures projectAtClick ==> c == diskContent
  {
    if projectAtClick then diskContent else ""
  }

  /** openExistingNovel as written, started from the selection screen (the only
      place its button is shown). */
  function OpenedChaptersAsWritten(metas: seq<Electron.ChapterEntry>, parseDate: string -> int,
                                   diskContent: string, now: int): (r: Selection)
    ensures |r.chapters| == if metas == [] then 1 else |metas|
    ensures forall i :: 0 <= i < |r.chapters| ==> r.chapters[i].content == "" && r.chapters[i].wordCount == 0
  {
    WordCountOfBlankText("");
    OpenedChapters(metas, parseDate, FirstContentAsWritten(false, diskContent), now)
  }

  /** Opening a novel whose first chapter file holds "Once" shows that chapter empty. */
  lemma OpeningDropsFirstChapterText(parseDate: string -> int, now: int)
    ensures var metas := [Electron.ChapterEntry(1, "Chapter 1", "", "")];
      var r := OpenedChaptersAsWritten(metas, parseDate, "Once", now);
      CurrentContent(r.chapters, r.currentChapterId) == "" != "Once"
  {
    var metas := [Electron.ChapterEntry(1, "Chapter 1", "", "")];
    OpenedChaptersWellFormed(metas, parseDate, "", now);
  }

  // ---------------------------------------------------------------------------
  // The window

  /** The chapter state of the editor window. `hasProject` says whether a
      novel is open (`currentProject !== null`). */
  class Workspace {
    var hasProject: bool
    var chapters: seq<Chapter>
    var currentChapterId: string

    ghost predicate Valid()
      reads this
    {
      WellFormed(chapters, currentChapterId) && (hasProject ==> chapters != [])
    }

    constructor ()
      ensures !hasProject && chapters == [] && currentChapterId == "1"
      ensures Valid()
    {
      hasProject := false;
      chapters := [];
      currentChapterId := "1";
    }

    /** The text shown in the editor. */
    function Content(): string
      reads this
    {
      CurrentContent(chapters, currentChapterId)
    }

    method ContentChange(html: string, wordCount: nat, now: int)
      modifies this
      ensures chapters == WithContent(old(chapters), currentChapterId, html, wordCount, now)
      ensures currentChapterId == old(currentChapterId) && hasProject == old(hasProject)
      ensures old(Valid()) ==> Valid()
    {
      if Valid() { ContentChangeKeepsWellFormed(chapters, currentChapterId, html, wordCount, now); }
      chapters := WithContent(chapters, currentChapterId, html, wordCount, now);
    }

    /** `diskContent` is what loading the chapter's file yielded ('' when it failed). */
    method ChapterSelect(id: string, diskContent: string)
      modifies this
      ensures HasId(old(chapters), id) ==>
        chapters == Selected(old(chapters), id, diskContent) && currentChapterId == id
      ensures !HasId(old(chapters), id) ==>
        chapters == old(chapters) && currentChapterId == old(currentChapterId)
      ensures hasProject == old(hasProject)
      ensures old(Valid()) ==> Valid()
    {
      if FindChapter(chapters, id).Some? {
        if Valid() { SelectKeepsWellFormed(chapters, id, diskContent); }
        chapters := Selected(chapters, id, diskContent);
        currentChapterId := id;
      }
    }

    /** `newId` stands for `Date.now().toString()`. */
    method ChapterCreate(newId: string, now: int)
      modifies this
      ensures old(hasProject) ==>
        chapters == WithNewChapter(old(chapters), newId, now) && currentChapterId == newId
      ensures !old(hasProject) ==>
        chapters == old(chapters) && currentChapterId == old(currentChapterId)
      ensures hasProject == old(hasProject)
      ensures old(Valid()) && !HasId(old(chapters), newId) ==> Valid()
    {
      if hasProject {
        if Valid() && !HasId(chapters, newId) { CreateKeepsWellFormed(chapters, newId, now); }
        chapters := WithNewChapter(chapters, newId, now);
        currentChapterId := newId;
      }
    }

    method ChapterDelete(id: string)
      modifies this
      ensures Selection(chapters, currentChapterId) == AfterDelete(old(chapters), old(currentChapterId), id)
      ensures hasProject == old(hasProject)
      ensures old(Valid()) ==> Valid()
    {
      if Valid() { DeleteKeepsWellFormed(chapters, currentChapterId, id); }
      var r := AfterDelete(chapters, currentChapterId, id);
      chapters := r.chapters;
      currentChapterId := r.currentChapterId;
    }

    method ChapterRename(id: string, title: string)
      modifies this
      ensures chapters == WithTitle(old(chapters), id, title)
      ensures currentChapterId == old(currentChapterId) && hasProject == old(hasProject)
      ensures old(Valid()) ==> Valid()
    {
      if Valid() { RenameKeepsWellFormed(chapters, currentChapterId, id, title); }
      chapters := WithTitle(chapters, id, title);
    }

    /** handleGhostTextInsert: the text is appended to the current content. */
    method GhostTextInsert(text: string, now: int)
      modifies this
      ensures var c := CurrentContent(old(chapters), old(currentChapterId)) + text;
        chapters == WithContent(old(chapters), currentChapterId, c, WordCount(c), now)
      ensures currentChapterId == old(currentChapterId) && hasProject == old(hasProject)
      ensures old(Valid()) ==> Valid()
    {
      var c := Content() + text;
      ContentChange(c, WordCount(c), now);
    }

    /** handleGhostTextReplace: the first occurrence of `oldText` is replaced. */
    method GhostTextReplace(oldText: string, newText: string, now: int)
      modifies this
      ensures var c := ReplaceFirst(CurrentContent(old(chapters), old(currentChapterId)), oldText, newText);
        chapters == WithContent(old(chapters), currentChapterId, c, WordCount(c), now)
      ensures currentChapterId == old(currentChapterId) && hasProject == old(hasProject)
      ensures old(Valid()) ==> Valid()
    {
      var c := ReplaceFirst(Content(), oldText, newText);
      ContentChange(c, WordCount(c), now);
    }

    /** createNewNovel once the novel was created and its metadata loaded. */
    method NovelCreated(now: int)
      modifies this
      ensures hasProject && chapters == [InitialChapter(now)] && currentChapterId == "1"
      ensures Valid()
    {
      hasProject := true;
      chapters := [InitialChapter(now)];
      currentChapterId := "1";
    }

    /** openExistingNovel once the folder was chosen and its metadata loaded.
        `firstContent` is the first chapter's file content; the window as
        written passes `FirstContentAsWritten(false, ...)`, which is "". */
    method NovelOpened(metas: seq<Electron.ChapterEntry>, parseDate: string -> int, firstContent: string, now: int)
      modifies this
      ensures hasProject
      ensures Selection(chapters, currentChapterId) == OpenedChapters(metas, parseDate, firstContent, now)
      ensures Electron.UniqueNumbers(metas) ==> Valid()
    {
      if Electron.UniqueNumbers(metas) { OpenedChaptersWellFormed(metas, parseDate, firstContent, now); }
      var r := OpenedChapters(metas, parseDate, firstContent, now);
      hasProject := true;
      chapters := r.chapters;
      currentChapterId := r.currentChapterId;
    }

    /** openExistingNovel when the parsed metadata has no `chapters` array, or
        an entry without `number`: the project is set first, then building the
        chapter list throws and the handler only logs. The window shows the new
        project with the chapters already in memory, which may be none, or the
        previous novel's. */
    method NovelOpenThrewAfterProjectSet()
      modifies this
      ensures hasProject
      ensures chapters == old(chapters) && currentChapterId == old(currentChapterId)
      ensures old(Valid()) && old(chapters) != [] ==> Valid()
      ensures old(chapters) == [] ==> !Valid()
    {
      hasProject := true;
    }

    /** The "Switch Project" button: the chapters stay in memory. */
    method SwitchProject()
      modifies this
      ensures !hasProject && chapters == old(chapters) && currentChapterId == old(currentChapterId)
      ensures old(Valid()) ==> Valid()
    {
      hasProject := false;
    }
  }
}
