/**
  Input validators and the file-name sanitiser of `src/utils/validation.ts`.
  Each validator collects a fresh list of error messages; `isValid` is whether
  that list is empty.
*/
module Validation {
  import opened Text
  import opened Wrappers

  // ValidationRules
  const NovelNameMinLength: nat := 1
  const NovelNameMaxLength: nat := 100
  const ChapterTitleMinLength: nat := 1
  const ChapterTitleMaxLength: nat := 200
  const ContentMaxLength: nat := 1000000

  /** The characters of the FORBIDDEN_CHARS class `[<>:"/\\|?*]`. */
  predicate IsForbiddenChar(c: char) {
    c == '<' || c == '>' || c == ':' || c == '"' || c == '/' || c == '\\' || c == '|' || c == '?' || c == '*'
  }

  predicate HasForbiddenChar(s: string) {
    exists i :: 0 <= i < |s| && IsForbiddenChar(s[i])
  }

  datatype ValidationResult = ValidationResult(isValid: bool, errors: seq<string>)

  const NovelNameRequired := "Novel name is required"
  const NovelNameTooShort := "Novel name must be at least 1 character(s)"
  const NovelNameTooLong := "Novel name must be no more than 100 characters"
  const NovelNameInvalidChars := "Novel name contains invalid characters. Please avoid: < > : \" / \\ | ? *"
  const ChapterTitleRequired := "Chapter title is required"
  const ChapterTitleTooShort := "Chapter title must be at least 1 character(s)"
  const ChapterTitleTooLong := "Chapter title must be no more than 200 characters"
  /** The limit is rendered with `toLocaleString()`; this is its en-US form. */
  const ContentTooLong := "Content is too long. Maximum allowed length is 1,000,000 characters"

  /** The result object every validator returns for the errors it collected. */
  function Collected(errors: seq<string>): (r: ValidationResult)
    ensures r.errors == errors
    ensures r.isValid <==> errors == []
  {
    ValidationResult(|errors| == 0, errors)
  }

  /** Whether a name would pass `validateNovelName`, stated without reference to the error list. */
  predicate AcceptableNovelName(name: string) {
    var t := Trim(name);
    1 <= |t| <= NovelNameMaxLength && !HasForbiddenChar(t)
  }

  /** `validateNovelName`, with the forbidden-character test scanning the whole trimmed name. */
  function ValidateNovelName(name: string): (r: ValidationResult)
    ensures r.isValid <==> r.errors == []
    ensures r.isValid <==> AcceptableNovelName(name)
    ensures Trim(name) == [] ==> r.errors == [NovelNameRequired]
    ensures NovelNameTooShort !in r.errors
    ensures |Trim(name)| > NovelNameMaxLength ==> NovelNameTooLong in r.errors
    ensures Trim(name) != [] && HasForbiddenChar(Trim(name)) ==> NovelNameInvalidChars in r.errors
    ensures |r.errors| <= 2
    ensures Trim(name) != [] ==>
      r.errors == (if |Trim(name)| > NovelNameMaxLength then [NovelNameTooLong] else [])
                  + (if HasForbiddenChar(Trim(name)) then [NovelNameInvalidChars] else [])
    ensures NovelNameRequired in r.errors <==> Trim(name) == []
    ensures NovelNameTooLong in r.errors <==> |Trim(name)| > NovelNameMaxLength
    ensures NovelNameInvalidChars in r.errors <==> Trim(name) != [] && HasForbiddenChar(Trim(name))
  {
    var trimmed := Trim(name);
    if |trimmed| == 0 then
      Collected([NovelNameRequired])
    else
      Collected(
        (if |trimmed| < NovelNameMinLength then [NovelNameTooShort] else [])
        + (if |trimmed| > NovelNameMaxLength then [NovelNameTooLong] else [])
        + (if HasForbiddenChar(trimmed) then [NovelNameInvalidChars] else []))
  }

  /** `validateChapterTitle`. */
  function ValidateChapterTitle(title: string): (r: ValidationResult)
    ensures r.isValid <==> r.errors == []
    ensures AllWhitespace(title) ==> r.errors == [ChapterTitleRequired]
    ensures !AllWhitespace(title) && |Trim(title)| > ChapterTitleMaxLength ==> r.errors == [ChapterTitleTooLong]
    ensures r.isValid <==> 1 <= |Trim(title)| <= ChapterTitleMaxLength
    ensures ChapterTitleTooShort !in r.errors
  {
    var trimmed := Trim(title);
    if |trimmed| == 0 then
      Collected([ChapterTitleRequired])
    else
      Collected(
        (if |trimmed| < ChapterTitleMinLength then [ChapterTitleTooShort] else [])
        + (if |trimmed| > ChapterTitleMaxLength then [ChapterTitleTooLong] else []))
  }

  /** `validateContentLength`. */
  function ValidateContentLength(content: string): (r: ValidationResult)
    ensures r.isValid <==> r.errors == []
    ensures r.isValid <==> |content| <= ContentMaxLength
    ensures !r.isValid ==> r.errors == [ContentTooLong]
  {
    Collected(if |content| > ContentMaxLength then [ContentTooLong] else [])
  }

  // ---------------------------------------------------------------------------
  // The code as written tests FORBIDDEN_CHARS, a regular expression with the
  // global flag that is shared by every call. `RegExp.prototype.test` on such a
  // regex starts searching at the regex's `lastIndex`, moves `lastIndex` past a
  // match, and resets it to 0 when the search fails (ECMAScript,
  // RegExpBuiltinExec). A second call can therefore start in the middle of its
  // name and miss a forbidden character before that point.

  /** The first index at or after `from` holding a forbidden character. */
  function FirstForbiddenFrom(s: string, from: nat): (r: Option<nat>)
    requires from <= |s|
    ensures r.None? <==> forall i :: from <= i < |s| ==> !IsForbiddenChar(s[i])
    ensures r.Some? ==> from <= r.value < |s| && IsForbiddenChar(s[r.value])
    ensures r.Some? ==> forall i :: from <= i < r.value ==> !IsForbiddenChar(s[i])
    decreases |s| - from
  {
    if from == |s| then None
    else if IsForbiddenChar(s[from]) then Some(from)
    else FirstForbiddenFrom(s, from + 1)
  }

  /** What one `.test` call returns and the `lastIndex` it leaves behind. */
  datatype RegexTest = RegexTest(matched: bool, lastIndex: nat)

  /** `FORBIDDEN_CHARS.test(s)` when the shared regex's `lastIndex` is `lastIndex`. */
  function GlobalForbiddenTest(s: string, lastIndex: nat): (r: RegexTest)
    ensures r.matched ==> lastIndex < r.lastIndex <= |s|
    ensures !r.matched ==> r.lastIndex == 0
    ensures lastIndex == 0 ==> (r.matched <==> HasForbiddenChar(s))
    ensures r.matched ==> HasForbiddenChar(s)
    ensures lastIndex > |s| ==> !r.matched
    ensures lastIndex <= |s| ==> (r.matched <==> exists i :: lastIndex <= i < |s| && IsForbiddenChar(s[i]))
    ensures r.matched ==> IsForbiddenChar(s[r.lastIndex - 1])
    ensures r.matched ==> forall i :: lastIndex <= i < r.lastIndex - 1 ==> !IsForbiddenChar(s[i])
  {
    if lastIndex > |s| then RegexTest(false, 0)
    else match FirstForbiddenFrom(s, lastIndex)
      case Some(i) => RegexTest(true, i + 1)
      case None => RegexTest(false, 0)
  }

  /** `validateNovelName` as written: its result, and the shared regex's
      `lastIndex` after the call, given the `lastIndex` before it. */
  function ValidateNovelNameAsWritten(name: string, lastIndex: nat): (r: (ValidationResult, nat))
    ensures r.0.isValid <==> r.0.errors == []
    ensures Trim(name) == [] ==> r == (Collected([NovelNameRequired]), lastIndex)
    ensures |Trim(name)| > NovelNameMaxLength ==> NovelNameTooLong in r.0.errors
    ensures NovelNameInvalidChars in r.0.errors ==> HasForbiddenChar(Trim(name))
    ensures ValidateNovelName(name).isValid ==> r.0.isValid
  {
    var trimmed := Trim(name);
    if |trimmed| == 0 then
      (Collected([NovelNameRequired]), lastIndex)
    else
      var test := GlobalForbiddenTest(trimmed, lastIndex);
      (Collected(
        (if |trimmed| < NovelNameMinLength then [NovelNameTooShort] else [])
        + (if |trimmed| > NovelNameMaxLength then [NovelNameTooLong] else [])
        + (if test.matched then [NovelNameInvalidChars] else [])),
       test.lastIndex)
  }

  /** While the shared regex is at its initial position the code as written
      gives the result of `ValidateNovelName`; a name that fails the test never
      moves the regex away from it. */
  lemma AsWrittenAgreesFromStart(name: string)
    ensures ValidateNovelNameAsWritten(name, 0).0 == ValidateNovelName(name)
    ensures !HasForbiddenChar(Trim(name)) ==> ValidateNovelNameAsWritten(name, 0).1 == 0
  {
  }

  /** The discrepancy: after "a?" is rejected (leaving `lastIndex` at 2), the
      name "?" is accepted, although it consists of a forbidden character. */
  lemma ForbiddenCharMissedAfterEarlierMatch()
    ensures var first := ValidateNovelNameAsWritten("a?", 0);
      && !first.0.isValid
      && first.1 == 2
      && ValidateNovelNameAsWritten("?", first.1).0.isValid
      && !ValidateNovelName("?").isValid
  {
    FirstNameRejected();
    SecondNameAccepted();
    QuestionMarkRejected();
  }

  lemma QuestionMarkRejected()
    ensures !ValidateNovelName("?").isValid
  {
    TrimOfSolid("?");
    assert HasForbiddenChar("?") by { assert IsForbiddenChar("?"[0]); }
  }

  lemma FirstNameRejected()
    ensures ValidateNovelNameAsWritten("a?", 0) == (Collected([NovelNameInvalidChars]), 2)
  {
    TrimOfSolid("a?");
    FirstTestMatches();
    assert [] + [] + [NovelNameInvalidChars] == [NovelNameInvalidChars];
  }

  lemma FirstTestMatches()
    ensures GlobalForbiddenTest("a?", 0) == RegexTest(true, 2)
  {
    assert FirstForbiddenFrom("a?", 0) == Some(1) by {
      assert !IsForbiddenChar("a?"[0]) && IsForbiddenChar("a?"[1]);
    }
  }

  lemma SecondNameAccepted()
    ensures ValidateNovelNameAsWritten("?", 2) == (Collected([]), 0)
  {
    TrimOfSolid("?");
    assert GlobalForbiddenTest("?", 2) == RegexTest(false, 0);
    var none: seq<string> := [];
    assert none + none + none == none;
  }

  // ---------------------------------------------------------------------------
  // sanitizeFileName: trim, replace forbidden characters by '_', collapse every
  // whitespace run to one space, keep the first 100 characters.

  /** `.replace(FORBIDDEN_CHARS, '_')` with the global flag: every forbidden character becomes '_'. */
  function ReplaceForbidden(s: string): (r: string)
    ensures |r| == |s|
    ensures !HasForbiddenChar(r)
    ensures forall i :: 0 <= i < |s| && !IsForbiddenChar(s[i]) ==> r[i] == s[i]
    ensures forall i :: 0 <= i < |s| && IsForbiddenChar(s[i]) ==> r[i] == '_'
  {
    if s == [] then []
    else [if IsForbiddenChar(s[0]) then '_' else s[0]] + ReplaceForbidden(s[1..])
  }

  /** No two neighbouring characters are both whitespace. */
  predicate NoDoubleWhitespace(s: string) {
    forall i :: 0 <= i < |s| - 1 ==> !(IsWhitespace(s[i]) && IsWhitespace(s[i + 1]))
  }

  /** `.replace(/\s+/g, ' ')`: each maximal whitespace run becomes one space. */
  function CollapseWhitespace(s: string): (r: string)
    ensures |r| <= |s|
    ensures s != [] ==> r != [] && r[0] == (if IsWhitespace(s[0]) then ' ' else s[0])
    decreases |s|
  {
    if s == [] then []
    else if IsWhitespace(s[0]) then [' '] + CollapseWhitespace(s[LeadingWhitespace(s)..])
    else [s[0]] + CollapseWhitespace(s[1..])
  }

  /** After collapsing, no two whitespace characters are adjacent. */
  lemma {:induction false} CollapseHasNoDoubleWhitespace(s: string)
    ensures NoDoubleWhitespace(CollapseWhitespace(s))
    decreases |s|
  {
    if s != [] {
      var r := CollapseWhitespace(s);
      var k := if IsWhitespace(s[0]) then LeadingWhitespace(s) else 1;
      var c := CollapseWhitespace(s[k..]);
      CollapseHasNoDoubleWhitespace(s[k..]);
      assert r == [r[0]] + c;
      assert IsWhitespace(r[0]) && c != [] ==> !IsWhitespace(c[0]);
      forall i | 0 <= i < |r| - 1 ensures !(IsWhitespace(r[i]) && IsWhitespace(r[i + 1])) {
        if i > 0 { assert r[i] == c[i - 1] && r[i + 1] == c[i]; }
      }
    }
  }

  /** After collapsing, every whitespace character is a plain space. */
  lemma {:induction false} CollapseSpacesArePlain(s: string)
    ensures forall i :: 0 <= i < |CollapseWhitespace(s)| && IsWhitespace(CollapseWhitespace(s)[i]) ==>
      CollapseWhitespace(s)[i] == ' '
    decreases |s|
  {
    if s != [] {
      var r := CollapseWhitespace(s);
      var k := if IsWhitespace(s[0]) then LeadingWhitespace(s) else 1;
      var c := CollapseWhitespace(s[k..]);
      CollapseSpacesArePlain(s[k..]);
      assert r == [r[0]] + c;
      forall i | 0 <= i < |r| && IsWhitespace(r[i]) ensures r[i] == ' ' {
        if i > 0 { assert r[i] == c[i - 1]; }
      }
    }
  }

  /** Collapsing introduces no forbidden character. */
  lemma {:induction false} CollapseAddsNoForbiddenChar(s: string)
    requires !HasForbiddenChar(s)
    ensures !HasForbiddenChar(CollapseWhitespace(s))
    decreases |s|
  {
    if s != [] {
      var r := CollapseWhitespace(s);
      var k := if IsWhitespace(s[0]) then LeadingWhitespace(s) else 1;
      var t := s[k..];
      var c := CollapseWhitespace(t);
      assert !HasForbiddenChar(t) by {
        forall i | 0 <= i < |t| ensures !IsForbiddenChar(t[i]) { assert t[i] == s[k + i]; }
      }
      CollapseAddsNoForbiddenChar(t);
      assert r == [r[0]] + c;
      assert !IsForbiddenChar(r[0]);
      forall i | 0 <= i < |r| ensures !IsForbiddenChar(r[i]) {
        if i > 0 { assert r[i] == c[i - 1]; }
      }
    }
  }

  /** The non-whitespace characters of `s`, in order. */
  function NonWhitespace(s: string): string {
    if s == [] then []
    else (if IsWhitespace(s[0]) then [] else [s[0]]) + NonWhitespace(s[1..])
  }

  /** Collapsing keeps every non-whitespace character, in order, and adds none. */
  lemma {:induction false} CollapseKeepsNonWhitespace(s: string)
    ensures NonWhitespace(CollapseWhitespace(s)) == NonWhitespace(s)
    decreases |s|
  {
    if s != [] {
      var r := CollapseWhitespace(s);
      if IsWhitespace(s[0]) {
        var k := LeadingWhitespace(s);
        CollapseKeepsNonWhitespace(s[k..]);
        assert r[1..] == CollapseWhitespace(s[k..]);
        NonWhitespaceSkipsRun(s, k);
      } else {
        CollapseKeepsNonWhitespace(s[1..]);
        assert r[1..] == CollapseWhitespace(s[1..]);
      }
    }
  }

  lemma {:induction false} NonWhitespaceSkipsRun(s: string, k: nat)
    requires k <= |s|
    requires forall i :: 0 <= i < k ==> IsWhitespace(s[i])
    ensures NonWhitespace(s) == NonWhitespace(s[k..])
    decreases k
  {
    if k > 0 {
      NonWhitespaceSkipsRun(s[1..], k - 1);
      assert s[1..][k - 1..] == s[k..];
    }
  }

  /** `s` with every whitespace character turned into a plain space. */
  function SpacesForWhitespace(s: string): (r: string)
    ensures |r| == |s|
    ensures forall i :: 0 <= i < |s| ==> r[i] == (if IsWhitespace(s[i]) then ' ' else s[i])
  {
    if s == [] then [] else [if IsWhitespace(s[0]) then ' ' else s[0]] + SpacesForWhitespace(s[1..])
  }

  /** `s` with every space that directly follows another space dropped. */
  function SqueezeSpaces(s: string): string {
    if |s| <= 1 then s
    else if s[0] == ' ' && s[1] == ' ' then SqueezeSpaces(s[1..])
    else [s[0]] + SqueezeSpaces(s[1..])
  }

  /** Reference definition of collapsing: turn each whitespace character into a
      space, then keep only the first space of each run of spaces. So every
      maximal whitespace run becomes exactly one space and nothing else changes. */
  lemma {:induction false} CollapseIsSqueezedSpaces(s: string)
    ensures CollapseWhitespace(s) == SqueezeSpaces(SpacesForWhitespace(s))
    decreases |s|
  {
    if s != [] {
      if IsWhitespace(s[0]) {
        SqueezeRun(s);
        CollapseIsSqueezedSpaces(s[LeadingWhitespace(s)..]);
      } else {
        var m := SpacesForWhitespace(s);
        assert m[1..] == SpacesForWhitespace(s[1..]);
        CollapseIsSqueezedSpaces(s[1..]);
      }
    }
  }

  lemma {:induction false} SqueezeRun(s: string)
    requires s != [] && IsWhitespace(s[0])
    ensures SqueezeSpaces(SpacesForWhitespace(s))
         == [' '] + SqueezeSpaces(SpacesForWhitespace(s[LeadingWhitespace(s)..]))
    decreases |s|
  {
    var m := SpacesForWhitespace(s);
    assert m[1..] == SpacesForWhitespace(s[1..]);
    if |s| > 1 && IsWhitespace(s[1]) {
      SqueezeRun(s[1..]);
      assert s[1..][LeadingWhitespace(s[1..])..] == s[LeadingWhitespace(s)..];
    } else {
      assert LeadingWhitespace(s) == 1;
    }
  }

  /** A whitespace-free prefix passes through collapsing unchanged. */
  lemma {:induction false} CollapseSkipsWord(s: string, k: nat)
    requires k <= |s|
    requires forall i :: 0 <= i < k ==> !IsWhitespace(s[i])
    ensures CollapseWhitespace(s) == s[..k] + CollapseWhitespace(s[k..])
    decreases k
  {
    if k > 0 {
      WordTail(s, k);
      CollapseSkipsWord(s[1..], k - 1);
      CollapseOfWordHead(s);
      WordGlue(s, k, CollapseWhitespace(s[k..]));
    }
  }

  lemma WordTail(s: string, k: nat)
    requires 0 < k <= |s|
    requires forall i :: 0 <= i < k ==> !IsWhitespace(s[i])
    ensures forall i :: 0 <= i < k - 1 ==> !IsWhitespace(s[1..][i])
    ensures s[1..][k - 1..] == s[k..]
  {
    forall i | 0 <= i < k - 1 ensures !IsWhitespace(s[1..][i]) { assert s[1..][i] == s[i + 1]; }
  }

  lemma CollapseOfWordHead(s: string)
    requires s != [] && !IsWhitespace(s[0])
    ensures CollapseWhitespace(s) == [s[0]] + CollapseWhitespace(s[1..])
  {
  }

  lemma WordGlue(s: string, k: nat, x: string)
    requires 0 < k <= |s|
    ensures s[..k] + x == [s[0]] + (s[1..][..k - 1] + x)
  {
    assert s[..k] == [s[0]] + s[1..][..k - 1];
    AppendAssoc([s[0]], s[1..][..k - 1], x);
  }

  /** JavaScript's `s.substring(0, n)`. */
  function Prefix(s: string, n: nat): (r: string)
    ensures |r| == if |s| < n then |s| else n
    ensures r == s[..|r|]
  {
    if |s| <= n then s else s[..n]
  }

  /** `sanitizeFileName`. */
  function SanitizeFileName(fileName: string): (r: string)
    ensures |r| <= NovelNameMaxLength
    ensures |Trim(fileName)| <= NovelNameMaxLength ==> |r| == |CollapseWhitespace(ReplaceForbidden(Trim(fileName)))|
  {
    Prefix(CollapseWhitespace(ReplaceForbidden(Trim(fileName))), NovelNameMaxLength)
  }

  /** A sanitised name is at most 100 characters long, contains no forbidden
      character, does not start with whitespace and never has two whitespace
      characters in a row. */
  lemma SanitizedFileNameIsSafe(fileName: string)
    ensures var r := SanitizeFileName(fileName);
      && |r| <= NovelNameMaxLength
      && !HasForbiddenChar(r)
      && (r != [] ==> !IsWhitespace(r[0]))
      && NoDoubleWhitespace(r)
  {
    var t := Trim(fileName);
    var u := ReplaceForbidden(t);
    var c := CollapseWhitespace(u);
    CollapseHasNoDoubleWhitespace(u);
    CollapseAddsNoForbiddenChar(u);
    var r := Prefix(c, NovelNameMaxLength);
    if r != [] {
      assert !IsWhitespace(u[0]);
      assert r[0] == c[0];
    }
    assert !HasForbiddenChar(r) by {
      forall i | 0 <= i < |r| ensures !IsForbiddenChar(r[i]) {
        assert r[i] == c[i];
      }
    }
    assert NoDoubleWhitespace(r) by {
      forall i | 0 <= i < |r| - 1 ensures !(IsWhitespace(r[i]) && IsWhitespace(r[i + 1])) {
        assert r[i] == c[i] && r[i + 1] == c[i + 1];
      }
    }
  }

  /** A name that already has no forbidden character, no surrounding or repeated
      whitespace, only plain spaces, and at most 100 characters, is left as it is. */
  lemma SanitizeKeepsCleanName(fileName: string)
    requires |fileName| <= NovelNameMaxLength
    requires !HasForbiddenChar(fileName)
    requires Trim(fileName) == fileName
    requires forall i :: 0 <= i < |fileName| && IsWhitespace(fileName[i]) ==> fileName[i] == ' '
    requires NoDoubleWhitespace(fileName)
    ensures SanitizeFileName(fileName) == fileName
  {
    NoForbiddenReplacesNothing(fileName);
    CollapseKeepsSingleSpaces(fileName);
  }

  lemma NoForbiddenReplacesNothing(s: string)
    requires !HasForbiddenChar(s)
    ensures ReplaceForbidden(s) == s
  {
  }

  lemma {:induction false} CollapseKeepsSingleSpaces(s: string)
    requires forall i :: 0 <= i < |s| && IsWhitespace(s[i]) ==> s[i] == ' '
    requires NoDoubleWhitespace(s)
    ensures CollapseWhitespace(s) == s
    decreases |s|
  {
    if s != [] {
      if IsWhitespace(s[0]) {
        assert |s| > 1 ==> !IsWhitespace(s[1]);
        assert LeadingWhitespace(s) == 1;
      }
      var rest := s[1..];
      assert forall i :: 0 <= i < |rest| && IsWhitespace(rest[i]) ==> rest[i] == ' ' by {
        forall i | 0 <= i < |rest| && IsWhitespace(rest[i]) ensures rest[i] == ' ' {
          assert rest[i] == s[i + 1];
        }
      }
      assert NoDoubleWhitespace(rest) by {
        forall i | 0 <= i < |rest| - 1 ensures !(IsWhitespace(rest[i]) && IsWhitespace(rest[i + 1])) {
          assert rest[i] == s[i + 1] && rest[i + 1] == s[i + 2];
        }
      }
      CollapseKeepsSingleSpaces(rest);
    }
  }
}
