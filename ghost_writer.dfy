/**
  The writing-assistant panel (`GhostWriterAgent.tsx`): the simulated
  suggestion cycle, applying a suggestion, and the icon and colour choices.
  The two timers (the 2-second debounce after an edit and the 1.5-second
  "thinking" delay) are modelled as separate calls: `ShouldScheduleGeneration`
  says when the first fires and `SuggestionsReady` is the second firing.
*/
module GhostWriter {
  import opened Text
  import opened Wrappers

  /** A suggestion. `kind` is the source's `type`; `preview` is optional. */
  datatype Suggestion = Suggestion(id: string, kind: string, text: string, preview: Option<string>, confidence: real)

  /** The three suggestions every completed analysis produces. */
  const CannedSuggestions: seq<Suggestion> := [
    Suggestion("1", "continuation", "Continue this scene with dialogue",
               Some("The character could respond with emotional depth..."), 0.9),
    Suggestion("2", "improvement", "Enhance the sensory details",
               Some("Add visual, auditory, or tactile elements..."), 0.8),
    Suggestion("3", "idea", "Introduce plot twist",
               Some("What if the character discovers something unexpected?"), 0.7)
  ]

  const InitialMessage := "I'm here to help with your writing..."
  const StartWritingMessage := "Start writing, and I'll offer suggestions..."
  const AnalyzingMessage := "Analyzing your writing..."
  const ReadyMessage := "I see opportunities in your writing..."
  const AppliedMessage := "Applied! I'll look for more opportunities..."
  const AskMessage := "What would you like me to help with?"

  /** The canned suggestions have distinct ids 1, 2 and 3, each with a preview, in
      decreasing confidence. */
  lemma CannedSuggestionsShape()
    ensures |CannedSuggestions| == 3
    ensures forall i :: 0 <= i < 3 ==> CannedSuggestions[i].id == NatToString(i + 1)
    ensures forall i :: 0 <= i < 3 ==> CannedSuggestions[i].preview.Some?
    ensures forall i, j :: 0 <= i < j < 3 ==> CannedSuggestions[i].confidence > CannedSuggestions[j].confidence
  {
    assert NatToString(1) == "1" && NatToString(2) == "2" && NatToString(3) == "3";
  }

  /** The auto-analysis effect schedules a run only while the panel is active
      and the text is non-empty (whitespace counts as text here). */
  predicate ShouldScheduleGeneration(isActive: bool, currentText: string): (scheduled: bool)
    ensures scheduled <==> isActive && currentText != []
    ensures scheduled ==> isActive
    ensures isActive && Trim(currentText) != [] ==> scheduled
    ensures isActive && |currentText| > 0 ==> scheduled
  {
    isActive && currentText != ""
  }

  /** Text made only of whitespace still schedules a run, and that run takes
      the generator's blank-text branch. */
  lemma BlankTextIsScheduled()
    ensures ShouldScheduleGeneration(true, " ") && Trim(" ") == []
  {
    assert AllWhitespace(" ") by { assert IsWhitespace(" "[0]); }
  }

  /** `${preview}` in a template: an absent preview renders as "undefined". */
  function PreviewText(preview: Option<string>): string {
    match preview
    case Some(p) => p
    case None => "undefined"
  }

  /** handleSuggestionClick's inserted text: two newlines, the upper-cased
      type in brackets, a space, the preview and a newline. */
  function InsertedText(s: Suggestion): (r: string)
    ensures |r| == 6 + |s.kind| + |PreviewText(s.preview)|
    ensures r[..3] == "\n\n[" && r[|r| - 1] == '\n'
    ensures r[3..3 + |s.kind|] == ToUpperAscii(s.kind)
    ensures r[3 + |s.kind|..5 + |s.kind|] == "] "
    ensures r[5 + |s.kind|..|r| - 1] == PreviewText(s.preview)
  {
    "\n\n[" + ToUpperAscii(s.kind) + "] " + PreviewText(s.preview) + "\n"
  }

  /** `suggestions.filter(s => s.id !== id)`. */
  function RemoveById(suggestions: seq<Suggestion>, id: string): (r: seq<Suggestion>)
    ensures |r| <= |suggestions|
    ensures forall s :: s in r <==> s in suggestions && s.id != id
  {
    if suggestions == [] then []
    else if suggestions[0].id == id then RemoveById(suggestions[1..], id)
    else [suggestions[0]] + RemoveById(suggestions[1..], id)
  }

  /** Removal keeps the others in order: it distributes over concatenation. */
  lemma {:induction false} RemoveByIdAppend(a: seq<Suggestion>, b: seq<Suggestion>, id: string)
    ensures RemoveById(a + b, id) == RemoveById(a, id) + RemoveById(b, id)
  {
    if a == [] {
      assert a + b == b;
    } else {
      var ab := a + b;
      assert ab[0] == a[0];
      assert ab[1..] == a[1..] + b;
      RemoveByIdAppend(a[1..], b, id);
      if a[0].id != id {
        calc {
          RemoveById(ab, id);
          [a[0]] + RemoveById(a[1..] + b, id);
          [a[0]] + (RemoveById(a[1..], id) + RemoveById(b, id));
          ([a[0]] + RemoveById(a[1..], id)) + RemoveById(b, id);
        }
      }
    }
  }

  /** Removing a missing id changes nothing, so removing twice equals removing once. */
  lemma {:induction false} RemoveByIdIdempotent(suggestions: seq<Suggestion>, id: string)
    ensures RemoveById(RemoveById(suggestions, id), id) == RemoveById(suggestions, id)
  {
    if suggestions != [] {
      RemoveByIdIdempotent(suggestions[1..], id);
    }
  }

  /** getSuggestionIcon: total, with the ghost for any unknown type. */
  function SuggestionIcon(kind: string): (icon: string)
    ensures kind == "continuation" ==> icon == "\U{2728}"
    ensures kind == "improvement" ==> icon == "\U{1F4AB}"
    ensures kind == "idea" ==> icon == "\U{1F4A1}"
    ensures kind == "question" ==> icon == "\U{2753}"
    ensures kind !in {"continuation", "improvement", "idea", "question"} ==> icon == "\U{1F47B}"
  {
    if kind == "continuation" then "\U{2728}"
    else if kind == "improvement" then "\U{1F4AB}"
    else if kind == "idea" then "\U{1F4A1}"
    else if kind == "question" then "\U{2753}"
    else "\U{1F47B}"
  }

  const Green := "#10b981"
  const Yellow := "#f59e0b"
  const Gray := "#6b7280"

  /** getConfidenceColor. */
  function ConfidenceColor(confidence: real): (color: string)
    ensures color == Green <==> confidence >= 0.8
    ensures color == Yellow <==> 0.6 <= confidence < 0.8
    ensures color == Gray <==> confidence < 0.6
  {
    if confidence >= 0.8 then Green
    else if confidence >= 0.6 then Yellow
    else Gray
  }

  /** The order of the three colours: gray, yellow, green. */
  function ColorRank(color: string): nat {
    if color == Green then 2 else if color == Yellow then 1 else 0
  }

  /** Higher confidence never gets a lower colour. */
  lemma ConfidenceColorMonotone(a: real, b: real)
    requires a <= b
    ensures ColorRank(ConfidenceColor(a)) <= ColorRank(ConfidenceColor(b))
  {
  }

  /** The panel's own state. */
  class GhostWriterPanel {
    var suggestions: seq<Suggestion>
    var isThinking: bool
    var ghostMessage: string

    constructor ()
      ensures suggestions == [] && !isThinking && ghostMessage == InitialMessage
    {
      suggestions := [];
      isThinking := false;
      ghostMessage := InitialMessage;
    }

    /** generateSuggestions: blank text clears the list without thinking;
        otherwise thinking starts and the list stays until the delay fires. */
    method GenerateSuggestions(currentText: string)
      modifies this
      ensures Trim(currentText) == [] ==>
        suggestions == [] && isThinking == old(isThinking) && ghostMessage == StartWritingMessage
      ensures Trim(currentText) != [] ==>
        suggestions == old(suggestions) && isThinking && ghostMessage == AnalyzingMessage
    {
      if Trim(currentText) == [] {
        suggestions := [];
        ghostMessage := StartWritingMessage;
      } else {
        isThinking := true;
        ghostMessage := AnalyzingMessage;
      }
    }

    /** The end of the simulated analysis. */
    method SuggestionsReady()
      modifies this
      ensures suggestions == CannedSuggestions && !isThinking && ghostMessage == ReadyMessage
    {
      suggestions := CannedSuggestions;
      isThinking := false;
      ghostMessage := ReadyMessage;
    }

    /** handleSuggestionClick: returns the text to insert and drops the suggestion. */
    method SuggestionClick(s: Suggestion) returns (inserted: string)
      modifies this
      ensures inserted == InsertedText(s)
      ensures suggestions == RemoveById(old(suggestions), s.id)
      ensures isThinking == old(isThinking) && ghostMessage == AppliedMessage
    {
      inserted := InsertedText(s);
      suggestions := RemoveById(suggestions, s.id);
      ghostMessage := AppliedMessage;
    }

    /** The "Ask Ghost" button. */
    method AskGhost()
      modifies this
      ensures ghostMessage == AskMessage
      ensures suggestions == old(suggestions) && isThinking == old(isThinking)
    {
      ghostMessage := AskMessage;
    }
  }
}
