/**
  The chapter sidebar (`ChapterList.tsx`): inline title editing, the
  relative-date labels and the footer totals.
*/
module ChapterList {
  import opened Text
  import opened Wrappers
  import App

  /** A rename the sidebar asks the window to perform. */
  datatype Rename = Rename(chapterId: string, title: string)

  /** finishEditing's decision: rename only while editing a chapter (a
      non-empty id, as JavaScript truthiness requires) and only with a title
      that is non-empty once trimmed; the trimmed title is passed on. */
  function FinishOutcome(editing: Option<string>, buffer: string): (r: Option<Rename>)
    ensures r.Some? <==> editing.Some? && editing.value != "" && Trim(buffer) != []
    ensures r.Some? ==> r.value == Rename(editing.value, Trim(buffer))
  {
    if editing.Some? && editing.value != "" && Trim(buffer) != [] then Some(Rename(editing.value, Trim(buffer)))
    else None
  }

  /** A requested title is never blank and carries no surrounding whitespace. */
  lemma RenamedTitleIsTrimmed(editing: Option<string>, buffer: string)
    requires FinishOutcome(editing, buffer).Some?
    ensures var t := FinishOutcome(editing, buffer).value.title;
      Trim(t) == t && t != []
  {
    TrimIdempotent(buffer);
  }

  /** The editing state of the sidebar. */
  class ChapterListEditor {
    var editingChapter: Option<string>
    var editTitle: string

    constructor ()
      ensures editingChapter == None && editTitle == ""
    {
      editingChapter := None;
      editTitle := "";
    }

    /** startEditing: the buffer starts from the chapter's current title. */
    method StartEditing(chapter: App.Chapter)
      modifies this
      ensures editingChapter == Some(chapter.id) && editTitle == chapter.title
    {
      editingChapter := Some(chapter.id);
      editTitle := chapter.title;
    }

    method EditTitleChange(value: string)
      modifies this
      ensures editTitle == value && editingChapter == old(editingChapter)
    {
      editTitle := value;
    }

    /** finishEditing (also on blur): the rename to request, if any; the
        editing state is cleared in every case. */
    method FinishEditing() returns (rename: Option<Rename>)
      modifies this
      ensures rename == FinishOutcome(old(editingChapter), old(editTitle))
      ensures editingChapter == None && editTitle == ""
    {
      rename := FinishOutcome(editingChapter, editTitle);
      editingChapter := None;
      editTitle := "";
    }

    /** handleKeyPress: Enter finishes, Escape cancels without renaming,
        any other key changes nothing. */
    method KeyPress(key: string) returns (rename: Option<Rename>)
      modifies this
      ensures key == "Enter" ==> rename == FinishOutcome(old(editingChapter), old(editTitle))
      ensures key != "Enter" ==> rename == None
      ensures key == "Enter" || key == "Escape" ==> editingChapter == None && editTitle == ""
      ensures key != "Enter" && key != "Escape" ==>
        editingChapter == old(editingChapter) && editTitle == old(editTitle)
    {
      rename := None;
      if key == "Enter" {
        rename := FinishEditing();
      } else if key == "Escape" {
        editingChapter := None;
        editTitle := "";
      }
    }
  }

  // ---------------------------------------------------------------------------
  // Dates

  const MsPerDay: int := 1000 * 60 * 60 * 24

  /** `Math.floor((now - date) / 86400000)` for times in whole milliseconds. */
  function DaysBetween(nowMs: int, dateMs: int): (d: int)
    ensures d * MsPerDay <= nowMs - dateMs < (d + 1) * MsPerDay
  {
    (nowMs - dateMs) / MsPerDay
  }

  /** formatDate; `localeDate` stands for `date.toLocaleDateString()`. */
  function FormatDate(nowMs: int, dateMs: int, localeDate: string): (r: string)
    ensures DaysBetween(nowMs, dateMs) == 0 ==> r == "Today"
    ensures DaysBetween(nowMs, dateMs) == 1 ==> r == "Yesterday"
    ensures var d := DaysBetween(nowMs, dateMs);
      d != 0 && d != 1 && d < 7 ==> r == IntToString(d) + " days ago"
    ensures DaysBetween(nowMs, dateMs) >= 7 ==> r == localeDate
  {
    var days := DaysBetween(nowMs, dateMs);
    if days == 0 then "Today"
    else if days == 1 then "Yesterday"
    else if days < 7 then IntToString(days) + " days ago"
    else localeDate
  }

  /** A time in the future by a day or more is shown as a negative number of days. */
  lemma FutureDatesShowNegativeDays(nowMs: int, dateMs: int, localeDate: string)
    requires dateMs - nowMs >= MsPerDay
    ensures var r := FormatDate(nowMs, dateMs, localeDate);
      r[0] == '-' && r[|r| - 9..] == " days ago"
  {
    assert DaysBetween(nowMs, dateMs) < 0;
  }

  /** Any time in the last 24 hours, up to the present, is "Today". */
  lemma RecentIsToday(nowMs: int, dateMs: int, localeDate: string)
    requires 0 <= nowMs - dateMs < MsPerDay
    ensures FormatDate(nowMs, dateMs, localeDate) == "Today"
  {
    assert DaysBetween(nowMs, dateMs) == 0;
  }

  // ---------------------------------------------------------------------------
  // Positions and footer

  /** The number shown beside each chapter: its position in the list. */
  function Positions(chapters: seq<App.Chapter>): (r: seq<nat>)
    ensures |r| == |chapters|
    ensures forall i :: 0 <= i < |r| ==> r[i] == i + 1
  {
    seq(|chapters|, i => i + 1)
  }

  /** The displayed positions depend only on how many chapters there are, not
      on their stored numbers. */
  lemma PositionsIgnoreNumbers(a: seq<App.Chapter>, b: seq<App.Chapter>)
    requires |a| == |b|
    ensures Positions(a) == Positions(b)
  {
  }

  /** The noun in the footer. */
  function ChapterNoun(count: nat): (w: string)
    ensures w == "chapter" <==> count == 1
    ensures w == "chapter" || w == "chapters"
  {
    if count == 1 then "chapter" else "chapters"
  }

  /** The chapter count in the footer. */
  function ChapterCountLabel(chapters: seq<App.Chapter>): (footer: string)
    ensures var k := |NatToString(|chapters|)|;
      && k < |footer|
      && footer[..k] == NatToString(|chapters|)
      && DecimalValue(footer[..k]) == |chapters|
      && footer[k..] == (if |chapters| == 1 then " chapter" else " chapters")
  {
    NatToStringValue(|chapters|);
    var digits := NatToString(|chapters|);
    var footer := digits + " " + ChapterNoun(|chapters|);
    assert footer[..|digits|] == digits;
    footer
  }

  /** `chapters.reduce((sum, ch) => sum + ch.wordCount, 0)`, shown in the
      footer and in the window header. */
  function TotalWords(chapters: seq<App.Chapter>): (n: nat)
    ensures forall i :: 0 <= i < |chapters| ==> chapters[i].wordCount <= n
    decreases |chapters|
  {
    if chapters == [] then 0 else TotalWords(chapters[..|chapters| - 1]) + chapters[|chapters| - 1].wordCount
  }

  /** The total of a concatenation is the sum of the totals. */
  lemma {:induction false} TotalWordsAppend(a: seq<App.Chapter>, b: seq<App.Chapter>)
    ensures TotalWords(a + b) == TotalWords(a) + TotalWords(b)
    decreases |b|
  {
    if b != [] {
      assert (a + b)[..|a + b| - 1] == a + b[..|b| - 1];
      TotalWordsAppend(a, b[..|b| - 1]);
    } else {
      assert a + b == a;
    }
  }

  /** Appending a new, empty chapter leaves the total unchanged. */
  lemma NewChapterKeepsTotal(chapters: seq<App.Chapter>, newId: string, now: int)
    ensures TotalWords(App.WithNewChapter(chapters, newId, now)) == TotalWords(chapters)
  {
    var r := App.WithNewChapter(chapters, newId, now);
    assert r[..|chapters|] == seq(|chapters|, i requires 0 <= i < |chapters| => chapters[i].(isActive := false));
    SameCountsSameTotal(r[..|chapters|], chapters);
    assert r == r[..|chapters|] + [r[|chapters|]];
    TotalWordsAppend(r[..|chapters|], [r[|chapters|]]);
  }

  /** Lists whose word counts agree position by position have the same total. */
  lemma {:induction false} SameCountsSameTotal(a: seq<App.Chapter>, b: seq<App.Chapter>)
    requires |a| == |b|
    requires forall i :: 0 <= i < |a| ==> a[i].wordCount == b[i].wordCount
    ensures TotalWords(a) == TotalWords(b)
    decreases |a|
  {
    if a != [] {
      SameCountsSameTotal(a[..|a| - 1], b[..|b| - 1]);
    }
  }

  /** Renaming never changes the total. */
  lemma RenameKeepsTotal(chapters: seq<App.Chapter>, id: string, title: string)
    ensures TotalWords(App.WithTitle(chapters, id, title)) == TotalWords(chapters)
  {
    var r := App.WithTitle(chapters, id, title);
    assert forall i :: 0 <= i < |chapters| ==> r[i].wordCount == chapters[i].wordCount;
    SameCountsSameTotal(r, chapters);
  }
}
