# GhostWriter 2 — a Dafny model of the writing app's core

GhostWriter 2 is a desktop novel-writing app. A host process owns the novel
folder on disk: a `novel.json` metadata file plus one `chapter-NN.md` file per
chapter. A renderer window shows the chapter list, the editor and a simulated
writing-assistant panel, together with a settings dialog for provider API keys
and a small client for rate limits and usage statistics.

The model covers these parts:

- **Validation** (`validation.dfy`, module `Validation`): the novel-name,
  chapter-title and content-length validators, and `sanitizeFileName`. It also
  models the behaviour of the shared global forbidden-character regex as
  written (see Findings).
- **Settings** (`settings.dfy`, module `SettingsModal`):
  - the API-key format warnings and key masking;
  - the active-provider bookkeeping on select, add and remove;
  - the dialog state as the class `SettingsPanel`.
- **Editor window** (`workspace.dfy`, module `App`):
  - the word-count formula;
  - the chapter-list transforms for content change, select, create, delete,
    rename, ghost-text insert and replace, and opening a novel;
  - the window state as the class `Workspace`, whose methods keep two
    invariants: ids are distinct, and the active chapters are exactly those
    whose id is current. Every handler runs in any state, as the source's
    handlers do (a `novel.json` with repeated chapter numbers breaks the
    invariants when it is opened); each one keeps the invariants of a state
    that met them.
- **Chapter sidebar** (`chapter_list.dfy`, module `ChapterList`): inline
  renaming (class `ChapterListEditor`), relative dates, positions and footer
  totals.
- **Novel-name dialog** (`novel_name.dfy`, module `NovelName`): the class
  `NovelNameDialog`. It reports what it asks of its parent as an ordered list
  of events.
- **Assistant panel** (`ghost_writer.dfy`, module `GhostWriter`):
  - the simulated suggestion cycle, as the class `GhostWriterPanel`;
  - the inserted text, the icons and the confidence colours.
- **Notifications** (`notifications.dfy`, module `Notifications`): defaults,
  the auto-removal rule, add, remove and clear (class `NotificationCenter`),
  and what the container renders.
- **Host file handlers** (`host.dfy`, module `Electron`):
  - the chapter file name;
  - the `novel.json` update on save;
  - the replies of the five handlers;
  - the class `NovelFolder`, which holds the folder's files and metadata.
- **Rate-limit and usage client** (`api_service.dfy`, module `Api`):
  - the normalisation of the bridge's rate-limit reply and its fail-open
    fallback;
  - the price table;
  - the ordered calls `safeApiCall` issues, recorded in the log of class
    `ApiService`;
  - the usage warnings;
  - the lazily created shared instance.
- **Helpers** (`text.dfy` and `wrappers.dfy`): JavaScript string behaviour
  (the `\s` whitespace set, `trim`, decimal rendering, `padStart`, ASCII
  upper-casing), plus `Option` and `Result`.

Inputs the code receives from the outside world are parameters of the model.
These include clock readings, random ids, file contents, dialog results,
secure-store and bridge replies, the provider call's outcome, and locale
formatting.

## Model

| member | source | states |
|---|---|---|
| Text.Trim | ghostwriter2/src/utils/validation.ts:34 | `trim()` removes exactly the leading and trailing run of JavaScript whitespace; the result is empty iff the input is all whitespace, and otherwise starts and ends with non-whitespace |
| Text.TrimIdempotent | ghostwriter2/src/utils/validation.ts:34 | trimming twice is trimming once |
| Text.NatToString | ghostwriter2/public/electron.js:91 | `toString()` of a chapter number: non-empty, only digits, a leading zero only for 0, a single digit iff below 10 |
| Text.NatToStringInjective | ghostwriter2/public/electron.js:91 | different numbers render differently |
| Text.NatToStringValue | ghostwriter2/public/electron.js:91 | reading the decimal rendering back (most significant digit first) gives the number: `toString` is a round trip |
| Text.PadStart | ghostwriter2/public/electron.js:91 | `padStart` keeps the string as a suffix and fills the left with the pad character up to the width |
| Validation.ValidateNovelName | ghostwriter2/src/utils/validation.ts:28-53 | valid iff there are no errors iff the trimmed name has 1–100 characters and no forbidden character; a blank name gives exactly ["required"]; otherwise the errors are exactly "too long" when over 100 followed by "invalid characters" when a forbidden character occurs; each error is present iff its condition holds, and "too short" never occurs |
| Validation.ValidateChapterTitle | ghostwriter2/src/utils/validation.ts:58-79 | valid iff the trimmed title has 1–200 characters; blank gives only "required", too long gives only "too long"; "too short" never occurs |
| Validation.ValidateContentLength | ghostwriter2/src/utils/validation.ts:84-95 | valid iff the content has at most 1,000,000 characters, otherwise exactly the "too long" error |
| Validation.GlobalForbiddenTest | ghostwriter2/src/utils/validation.ts:44 | `.test` on the shared `/g` regex: a `lastIndex` past the end fails; otherwise it matches iff a forbidden character occurs at or after `lastIndex`, and a match leaves `lastIndex` just past the first such character; a failure resets it to 0 |
| Validation.ValidateNovelNameAsWritten | ghostwriter2/src/utils/validation.ts:28-53 | the code as written, with the shared regex position threaded through: a blank name gives only "required" and leaves the position alone, an over-long name gives "too long", "invalid characters" is reported only for a name that has a forbidden character, and every name the corrected validator accepts is accepted; it can only miss a forbidden character, never invent one |
| Validation.AsWrittenAgreesFromStart | ghostwriter2/src/utils/validation.ts:28-53 | with `lastIndex` at 0 the code as written gives the corrected result, and a name without forbidden characters leaves `lastIndex` at 0 |
| Validation.ForbiddenCharMissedAfterEarlierMatch | ghostwriter2/src/utils/validation.ts:44 | after "a?" is rejected, "?" is accepted by the code as written, though the corrected validator rejects it |
| Validation.ReplaceForbidden | ghostwriter2/src/utils/validation.ts:103 | every forbidden character, and only those, becomes '_'; the length is kept |
| Validation.CollapseWhitespace | ghostwriter2/src/utils/validation.ts:104 | collapsing never lengthens the text, and its first character is kept, or becomes a space when it is whitespace |
| Validation.CollapseHasNoDoubleWhitespace | ghostwriter2/src/utils/validation.ts:104 | no two whitespace characters remain adjacent |
| Validation.CollapseSpacesArePlain | ghostwriter2/src/utils/validation.ts:104 | every remaining whitespace character is a plain space |
| Validation.CollapseAddsNoForbiddenChar | ghostwriter2/src/utils/validation.ts:104 | collapsing introduces no forbidden character |
| Validation.CollapseKeepsNonWhitespace | ghostwriter2/src/utils/validation.ts:104 | the non-whitespace characters are kept, in order, and none is added |
| Validation.CollapseIsSqueezedSpaces | ghostwriter2/src/utils/validation.ts:104 | collapsing equals turning every whitespace character into a space and then dropping each space that follows a space: each maximal whitespace run becomes exactly one space and nothing else changes |
| Validation.SanitizeFileName | ghostwriter2/src/utils/validation.ts:100-106 | the result has at most 100 characters, and a name of at most 100 characters once trimmed is not cut |
| Validation.SanitizedFileNameIsSafe | ghostwriter2/src/utils/validation.ts:100-106 | a sanitised name has at most 100 characters, no forbidden character, no leading whitespace and no two adjacent whitespace characters |
| Validation.SanitizeKeepsCleanName | ghostwriter2/src/utils/validation.ts:100-106 | a name that is already clean is returned unchanged |
| SettingsModal.NoWarningIffWellFormed | ghostwriter2/src/components/SettingsModal.tsx:111-160 | `validateApiKey` returns "" exactly when the trimmed key meets the generic rules (≥ 20 characters, no space) and its provider's prefix and length rules |
| SettingsModal.ProviderChecksPrefixBeforeLength | ghostwriter2/src/components/SettingsModal.tsx:124-156 | past the generic checks, a known provider's prefix check comes first: a key without the prefix gets the prefix warning whatever its length, and a key with the prefix but out-of-range length gets the length warning |
| SettingsModal.ValidateApiKeyIgnoresSurroundingWhitespace | ghostwriter2/src/components/SettingsModal.tsx:112 | the verdict for a key equals the verdict for its trimmed form |
| SettingsModal.GenericChecksComeFirst | ghostwriter2/src/components/SettingsModal.tsx:115-121 | for every provider a short key gets "too short", and a long enough key with a space gets "no spaces" |
| SettingsModal.UnknownProviderOnlyGenericChecks | ghostwriter2/src/components/SettingsModal.tsx:124-159 | a provider outside the four gets only the generic checks |
| SettingsModal.ValidateApiKey | ghostwriter2/src/components/SettingsModal.tsx:111-160 | the answer is "" or one of the nine fixed warnings |
| SettingsModal.MaskApiKey | ghostwriter2/src/components/SettingsModal.tsx:291-294 | keys of at most 8 characters are unchanged; longer keys keep their length and their first and last four characters, and every middle character is `•` |
| SettingsModal.SetActiveProvider | ghostwriter2/src/components/SettingsModal.tsx:274-289 | a provider without keys changes nothing; otherwise it becomes active, and each key becomes active iff its provider matches, with nothing else about the keys changed |
| SettingsModal.SetActiveProviderIdempotent | ghostwriter2/src/components/SettingsModal.tsx:274-289 | selecting a provider twice equals selecting it once |
| SettingsModal.LoadedSettings | ghostwriter2/src/components/SettingsModal.tsx:59-100 | theme defaults to auto; the keys are the listing's, in order, with id, name, provider and creation time copied (none when the listing failed or there is no bridge), and a key is active iff its provider is the stored active provider |
| SettingsModal.SettingsAfterAdd | ghostwriter2/src/components/SettingsModal.tsx:214-226 | after a store, the reloaded keys are kept; the new key's provider becomes active only if it had no keys and no provider was active |
| SettingsModal.SettingsAfterRemove | ghostwriter2/src/components/SettingsModal.tsx:246-262 | after a delete, the active provider is reset only when the last key of the active provider went |
| SettingsModal.RemoveKeepsActiveWhileKeysRemain | ghostwriter2/src/components/SettingsModal.tsx:254-261 | while another key of the removed key's provider remains, the active provider is kept |
| SettingsModal.SettingsPanel.AddApiKey | ghostwriter2/src/components/SettingsModal.tsx:198-240 | blank inputs are ignored; without encryption or on a failed store nothing changes; otherwise the settings are reloaded and the inputs are cleared |
| SettingsModal.SettingsPanel.RemoveApiKey | ghostwriter2/src/components/SettingsModal.tsx:242-272 | a failed delete changes nothing; a successful one reloads the settings and applies the reset rule |
| SettingsModal.SettingsPanel.KeyValueChange | ghostwriter2/src/components/SettingsModal.tsx:163-171 | the warning is recomputed for non-blank input and cleared otherwise |
| SettingsModal.SettingsPanel.ProviderChange | ghostwriter2/src/components/SettingsModal.tsx:173-179 | the typed key is re-checked under the new provider |
| SettingsModal.SettingsPanel.SetActive | ghostwriter2/src/components/SettingsModal.tsx:274-289 | the settings become `SetActiveProvider` of the old ones, and the preference is saved only when the provider has keys |
| SettingsModal.SettingsPanel.LoadSettings | ghostwriter2/src/components/SettingsModal.tsx:59-100 | the settings become `LoadedSettings` of the stored theme, the listing and the stored preference; when `listApiKeys` rejects, the catch leaves the settings unchanged |
| SettingsModal.SettingsPanel.CheckEncryption | ghostwriter2/src/components/SettingsModal.tsx:47-57 | without a bridge nothing changes; otherwise the flag is the store's answer, or false when the query throws; nothing else changes |
| SettingsModal.SettingsPanel.ThemeChange | ghostwriter2/src/components/SettingsModal.tsx:181-184 | only the theme changes, and it is saved as the stored theme |
| App.StripTags | ghostwriter2/src/App.tsx:186 | removing `<...>` spans never lengthens the text; text without `<`, or without `>`, is left exactly as it is (a `<` with no later `>` stays); and no `<` followed later by `>` remains |
| App.StripTagsKeepsTagFreePrefix | ghostwriter2/src/App.tsx:186 | text before the first `<` is kept as it is, and stripping continues on the rest |
| App.StripTagsDropsTag | ghostwriter2/src/App.tsx:186 | a `<`, a stretch without `>`, and the closing `>` are removed together, and stripping continues after them |
| App.SplitOnWhitespace | ghostwriter2/src/App.tsx:186 | `split(/\s+/)` yields at least one piece; no piece holds whitespace; the pieces joined by single spaces give the text with each whitespace run collapsed to one space, so they are the maximal non-whitespace runs in order, with an empty piece for a leading or trailing run; the number of non-empty pieces is the number of runs |
| App.WordCount | ghostwriter2/src/App.tsx:186 | the stored word count is the number of non-whitespace runs after removing tags |
| App.WordCountOfBlankText | ghostwriter2/src/App.tsx:305 | text that is blank once tags are removed counts 0 words |
| App.WordCountAgreesWithEditor | ghostwriter2/src/components/RichTextEditor.tsx:25-26 | on tag-free text the window's count equals the editor's `trim`-then-split count |
| App.EditorWordCount | ghostwriter2/src/components/RichTextEditor.tsx:25-26 | the editor's count is the number of maximal non-whitespace runs of the text (the independent `Runs`), blank text counting zero |
| App.IndexOf | ghostwriter2/src/App.tsx:191 | finds the first position where the pattern occurs, or reports that it occurs nowhere |
| App.ReplaceFirst | ghostwriter2/src/App.tsx:191 | an absent pattern leaves the content unchanged; otherwise the occurrence is replaced |
| App.ReplaceFirstTouchesFirstOccurrence | ghostwriter2/src/App.tsx:191 | only the first occurrence is replaced: the text before it has none and the text after is kept |
| App.WithContent | ghostwriter2/src/App.tsx:91-105 | only content, word count and time change, only on chapters with the current id; order and length are kept |
| App.Selected | ghostwriter2/src/App.tsx:119-124 | exactly the chosen id is active, only its content becomes the loaded text, and everything else is kept |
| App.MaxNumber | ghostwriter2/src/App.tsx:139 | `Math.max(...numbers, 0)` is an upper bound that is attained (0 for an empty list) |
| App.NextNumber | ghostwriter2/src/App.tsx:139 | the new number exceeds every existing number by at least one and is one more than some existing number (1 for an empty list) |
| App.WithNewChapter | ghostwriter2/src/App.tsx:139-155 | every existing chapter is deactivated and otherwise kept; the new chapter "Chapter n" is appended last, active, empty and numbered above all others |
| App.Without | ghostwriter2/src/App.tsx:166 | the `filter` keeps exactly the chapters with a different id |
| App.WithoutAppend | ghostwriter2/src/App.tsx:166 | the filter keeps the survivors in order |
| App.WithoutRemovesAtMostOne | ghostwriter2/src/App.tsx:166 | with distinct ids at most one chapter is removed |
| App.AfterDelete | ghostwriter2/src/App.tsx:162-176 | one chapter or none: no change; otherwise the filtered list, and when the current chapter went, the first remaining chapter becomes current and the only active one |
| App.DeleteKeepsWellFormed | ghostwriter2/src/App.tsx:162-176 | delete keeps ids distinct and active iff current, and never empties a non-empty list |
| App.WithTitle | ghostwriter2/src/App.tsx:178-182 | only the title of the matching chapters changes |
| App.OpenedChapters | ghostwriter2/src/App.tsx:275-307 | the chapters come from the metadata with id = number string and only the first active and current; the first chapter gets the loaded text and its word count; empty metadata gives a single "Chapter 1" |
| App.OpenedChaptersWellFormed | ghostwriter2/src/App.tsx:275-307 | with distinct metadata numbers the opened list is non-empty and well formed, and the editor shows the loaded text |
| App.ContentChangeKeepsWellFormed | ghostwriter2/src/App.tsx:91-105 | a content change keeps the list well formed |
| App.SelectKeepsWellFormed | ghostwriter2/src/App.tsx:114-128 | selecting makes the chosen chapter the only active and current one |
| App.CreateKeepsWellFormed | ghostwriter2/src/App.tsx:139-158 | a new chapter with a fresh id is the only active chapter and becomes current |
| App.RenameKeepsWellFormed | ghostwriter2/src/App.tsx:178-182 | renaming keeps the list well formed |
| App.OpeningDropsFirstChapterText | ghostwriter2/src/App.tsx:302 | opening as written from the selection screen shows the first chapter empty, although its file holds text |
| App.FirstContentAsWritten | ghostwriter2/src/App.tsx:77-89 | the loader captured while no project is open answers '' whatever the file holds; with a project it answers the file's text |
| App.OpenedChaptersAsWritten | ghostwriter2/src/App.tsx:302 | opening as written yields one chapter per metadata entry (or the initial one), every one of them with empty content and zero words |
| App.Workspace.ChapterSelect | ghostwriter2/src/App.tsx:107-129 | an existing id selects that chapter and makes it current; an unknown id changes nothing |
| App.Workspace.ContentChange | ghostwriter2/src/App.tsx:91-105 | the chapters become `WithContent` of the old ones for the current id; the current id and the project flag are kept, and a state that met the invariant still meets it |
| App.Workspace.ChapterRename | ghostwriter2/src/App.tsx:178-182 | the chapters become `WithTitle` of the old ones; the current id is kept, and a state that met the invariant still meets it |
| App.Workspace.ChapterCreate | ghostwriter2/src/App.tsx:131-160 | without a project nothing changes; otherwise the new chapter is appended and becomes current |
| App.Workspace.ChapterDelete | ghostwriter2/src/App.tsx:162-176 | the state becomes `AfterDelete` of the old state, and a state that met the invariant still meets it |
| App.Workspace.GhostTextInsert | ghostwriter2/src/App.tsx:184-188 | the text is appended to the current content and the word count recomputed |
| App.Workspace.GhostTextReplace | ghostwriter2/src/App.tsx:190-194 | the first occurrence in the current content is replaced and the word count recomputed |
| App.Workspace.NovelCreated | ghostwriter2/src/App.tsx:227-241 | a created novel starts with the single chapter "Chapter 1", id "1", current |
| App.InitialChapter | ghostwriter2/src/App.tsx:230-238 | the initial chapter has id "1", number 1, title "Chapter 1", no content, zero words, and is active |
| App.Workspace.NovelOpened | ghostwriter2/src/App.tsx:258-314 | the state becomes `OpenedChapters` of the metadata and the loaded text |
| App.Workspace.NovelOpenThrewAfterProjectSet | ghostwriter2/src/App.tsx:272-276 | when building the chapter list throws after `setCurrentProject`, the window has the new project open with the chapters and current id it had before; this keeps the invariants only if chapters were already in memory, and breaks them when there were none |
| App.Workspace.SwitchProject | ghostwriter2/src/App.tsx:372 | the project is closed; the chapters and the current id are kept, and a state that met the invariant still meets it |
| ChapterList.FinishOutcome | ghostwriter2/src/components/ChapterList.tsx:35-41 | a rename is requested iff a chapter is being edited and the trimmed buffer is non-empty, and the title passed on is the trimmed buffer |
| ChapterList.RenamedTitleIsTrimmed | ghostwriter2/src/components/ChapterList.tsx:37 | a requested title is non-blank and already trimmed |
| ChapterList.ChapterListEditor.StartEditing | ghostwriter2/src/components/ChapterList.tsx:30-33 | editing starts on the chapter's id with its title in the buffer |
| ChapterList.ChapterListEditor.EditTitleChange | ghostwriter2/src/components/ChapterList.tsx:98 | the buffer becomes the typed value and the chapter being edited is kept |
| ChapterList.ChapterListEditor.FinishEditing | ghostwriter2/src/components/ChapterList.tsx:35-41 | the rename is `FinishOutcome` of the old state, and the editing state is cleared in every case |
| ChapterList.ChapterListEditor.KeyPress | ghostwriter2/src/components/ChapterList.tsx:43-50 | Enter acts as finishEditing; Escape clears without renaming; other keys change nothing |
| ChapterList.DaysBetween | ghostwriter2/src/components/ChapterList.tsx:54-55 | the day count is the floor of the difference over 86,400,000 ms |
| ChapterList.FormatDate | ghostwriter2/src/components/ChapterList.tsx:52-61 | 0 days is "Today", 1 is "Yesterday", any other count below 7 (negative included) is "n days ago", and 7 or more is the locale date |
| ChapterList.FutureDatesShowNegativeDays | ghostwriter2/src/components/ChapterList.tsx:59 | a date a day or more in the future is shown as a negative number of days |
| ChapterList.RecentIsToday | ghostwriter2/src/components/ChapterList.tsx:57 | anything in the last 24 hours is "Today" |
| ChapterList.Positions | ghostwriter2/src/components/ChapterList.tsx:91 | the shown position is the index plus one |
| ChapterList.PositionsIgnoreNumbers | ghostwriter2/src/components/ChapterList.tsx:91 | two lists of the same length show the same positions, whatever their stored numbers |
| ChapterList.ChapterNoun | ghostwriter2/src/components/ChapterList.tsx:157 | the footer says "chapter" iff there is exactly one chapter |
| ChapterList.ChapterCountLabel | ghostwriter2/src/components/ChapterList.tsx:154 | the footer starts with the decimal chapter count (it reads back as the count) followed by " chapter" for exactly one chapter and " chapters" otherwise |
| ChapterList.TotalWords | ghostwriter2/src/components/ChapterList.tsx:160 | the total bounds every chapter's word count |
| ChapterList.TotalWordsAppend | ghostwriter2/src/components/ChapterList.tsx:160 | the total of a concatenation is the sum of the totals |
| ChapterList.NewChapterKeepsTotal | ghostwriter2/src/App.tsx:316 | creating a chapter leaves the total word count unchanged |
| ChapterList.RenameKeepsTotal | ghostwriter2/src/App.tsx:316 | renaming leaves the total word count unchanged |
| NovelName.SubmitEvents | ghostwriter2/src/components/NovelNameModal.tsx:19-26 | a name that is blank once trimmed does nothing; otherwise the trimmed name is confirmed and then the dialog closes |
| NovelName.SubmitEnabled | ghostwriter2/src/components/NovelNameModal.tsx:63 | the Create button is enabled iff the name holds some non-whitespace character |
| NovelName.ConfirmedNameIsTrimmed | ghostwriter2/src/components/NovelNameModal.tsx:21-23 | a confirmed name is non-blank, trimmed and no longer than the input |
| NovelName.KeyDownEvents | ghostwriter2/src/components/NovelNameModal.tsx:28-32 | Escape asks only to close; other keys do nothing |
| NovelName.EscapeNeverConfirms | ghostwriter2/src/components/NovelNameModal.tsx:28-32 | a key press never confirms a name: every event it produces is a close request |
| NovelName.NovelNameDialog.OpenChanged | ghostwriter2/src/components/NovelNameModal.tsx:13-17 | opening the dialog clears the name |
| NovelName.NovelNameDialog.Input | ghostwriter2/src/components/NovelNameModal.tsx:55 | the name holds at most 100 characters |
| NovelName.NovelNameDialog.Submit | ghostwriter2/src/components/NovelNameModal.tsx:19-26 | submitting emits `SubmitEvents` of the current name |
| NovelName.NovelNameDialog.KeyDown | ghostwriter2/src/components/NovelNameModal.tsx:28-32 | a key press emits `KeyDownEvents` of the key: only Escape asks to close |
| NovelName.NovelNameDialog.Cancel | ghostwriter2/src/components/NovelNameModal.tsx:37-41 | the overlay, the × button and Cancel only ask to close |
| GhostWriter.CannedSuggestionsShape | ghostwriter2/src/components/GhostWriterAgent.tsx:48-70 | the finished analysis yields three suggestions with ids 1–3, each with a preview, in decreasing confidence |
| GhostWriter.InsertedText | ghostwriter2/src/components/GhostWriterAgent.tsx:88-89 | the inserted text is two newlines, "[", the upper-cased type, "] ", the preview and a newline |
| GhostWriter.RemoveById | ghostwriter2/src/components/GhostWriterAgent.tsx:92 | applying a suggestion keeps exactly the suggestions with other ids |
| GhostWriter.RemoveByIdAppend | ghostwriter2/src/components/GhostWriterAgent.tsx:92 | the remaining suggestions keep their order |
| GhostWriter.RemoveByIdIdempotent | ghostwriter2/src/components/GhostWriterAgent.tsx:92 | removing an id twice equals removing it once |
| GhostWriter.SuggestionIcon | ghostwriter2/src/components/GhostWriterAgent.tsx:96-104 | the icon is defined for every type, with the ghost for unknown types |
| GhostWriter.ConfidenceColor | ghostwriter2/src/components/GhostWriterAgent.tsx:106-110 | green iff ≥ 0.8, yellow iff in [0.6, 0.8), gray iff < 0.6 |
| GhostWriter.ConfidenceColorMonotone | ghostwriter2/src/components/GhostWriterAgent.tsx:106-110 | higher confidence never gets a lower colour |
| GhostWriter.GhostWriterPanel.GenerateSuggestions | ghostwriter2/src/components/GhostWriterAgent.tsx:36-45 | blank text clears the list without thinking; otherwise thinking starts and the list is kept |
| GhostWriter.ShouldScheduleGeneration | ghostwriter2/src/components/GhostWriterAgent.tsx:79-84 | a run is scheduled iff the panel is active and the text is non-empty; in particular every non-blank text of an active panel is scheduled, and empty text never is |
| GhostWriter.BlankTextIsScheduled | ghostwriter2/src/components/GhostWriterAgent.tsx:79-84 | whitespace-only text still schedules a run, and that run takes the generator's blank-text branch (the effect tests `currentText`, the generator `currentText.trim()`) |
| GhostWriter.GhostWriterPanel.SuggestionsReady | ghostwriter2/src/components/GhostWriterAgent.tsx:47-75 | when the analysis finishes, the list is exactly the canned suggestions and thinking stops |
| GhostWriter.GhostWriterPanel.SuggestionClick | ghostwriter2/src/components/GhostWriterAgent.tsx:86-94 | a click returns the inserted text and removes the suggestion by id |
| GhostWriter.GhostWriterPanel.AskGhost | ghostwriter2/src/components/GhostWriterAgent.tsx:201-204 | the ghost message becomes the fixed question; the suggestions and the thinking flag are kept |
| Notifications.WithDefaults | ghostwriter2/src/components/NotificationSystem.tsx:38-43 | duration defaults to 5000 and dismissible to true; fields the caller supplies win |
| Notifications.AutoRemoval | ghostwriter2/src/components/NotificationSystem.tsx:48-52 | an auto-removal is scheduled iff the duration is positive, after that duration |
| Notifications.DefaultRequestIsRemovedAfterFiveSeconds | ghostwriter2/src/components/NotificationSystem.tsx:38-52 | without a duration, removal is scheduled after 5000 ms |
| Notifications.Without | ghostwriter2/src/components/NotificationSystem.tsx:55-57 | removal keeps exactly the notifications with other ids |
| Notifications.WithoutAppend | ghostwriter2/src/components/NotificationSystem.tsx:56 | removal keeps the others in order |
| Notifications.WithoutIdempotent | ghostwriter2/src/components/NotificationSystem.tsx:56 | removing twice equals removing once |
| Notifications.RemoveUndoesAdd | ghostwriter2/src/components/NotificationSystem.tsx:45-56 | removing a just-added notification with a new id restores the list |
| Notifications.Render | ghostwriter2/src/components/NotificationSystem.tsx:79-98 | an empty list renders nothing; otherwise one item per notification in order, with a dismiss button iff dismissible |
| Notifications.NotificationCenter.Add | ghostwriter2/src/components/NotificationSystem.tsx:36-53 | exactly one item is appended at the end, and the auto-removal delay is reported |
| Notifications.NotificationCenter.Remove | ghostwriter2/src/components/NotificationSystem.tsx:55-57 | the list becomes `Without` of the old list and the id |
| Notifications.NotificationCenter.ClearAll | ghostwriter2/src/components/NotificationSystem.tsx:59-61 | the list becomes empty |
| Electron.ChapterFileName | ghostwriter2/public/electron.js:91 | the name is "chapter-", the number zero-padded to at least two digits, then ".md" |
| Electron.ChapterFileNameInjective | ghostwriter2/public/electron.js:91 | different chapter numbers get different file names |
| Electron.NewNovelMetadata | ghostwriter2/public/electron.js:70-75 | new metadata carries the novel name as title and an empty chapter list |
| Electron.FindChapterIndex | ghostwriter2/public/electron.js:100 | `findIndex` gives the first entry with the number, or none |
| Electron.RecordChapterSave | ghostwriter2/public/electron.js:100-112 | an existing entry gets only a new `lastModified`, the others are unchanged; a missing number appends one entry "Chapter n"; the top-level `lastModified` is set |
| Electron.RecordChapterSaveKeepsNumbersUnique | ghostwriter2/public/electron.js:100-110 | saving keeps chapter numbers unique and leaves an entry for the saved number |
| Electron.RecordChapterSaveTwiceAddsOnce | ghostwriter2/public/electron.js:100-110 | saving the same number again never adds a second entry |
| Electron.LoadChapterReplyFor | ghostwriter2/public/electron.js:126-133 | a missing file loads as empty content; any other read error is a failure |
| Electron.CreateNovel | ghostwriter2/public/electron.js:50-87 | a cancelled dialog replies cancelled; an error replies with its message; otherwise new metadata for the name is written |
| Electron.SelectNovelFolder | ghostwriter2/public/electron.js:146-162 | the first chosen path, or cancelled when the dialog was cancelled or chose nothing |
| Electron.ReadMetadata | ghostwriter2/public/electron.js:97-98 | reading `novel.json` gives the metadata when it parses; a missing file fails with the ENOENT message naming `<novelPath>/novel.json`, an unparseable one with the parser's message |
| Electron.MissingMetadataMessage | ghostwriter2/public/electron.js:97-98 | the message for a missing `novel.json` is Node's ENOENT text with the quoted path `<novelPath>/novel.json` it tried to open |
| Electron.NovelFolder.SaveChapter | ghostwriter2/public/electron.js:89-119 | a failed chapter write fails with its message and changes nothing; otherwise the chapter file is written, and then a missing or unparseable `novel.json` or a failed metadata write fails with its message and leaves the metadata as it was, while success makes it `RecordChapterSave` of the old metadata |
| Electron.NovelFolder.LoadChapter | ghostwriter2/public/electron.js:121-134 | loading returns the file saved under the same name, or "" when there is none |
| Electron.NovelFolder.LoadNovelMetadata | ghostwriter2/public/electron.js:136-144 | the parsed metadata, or the ENOENT message naming the folder's `novel.json` for a missing file, or the parser's message for an unparseable one |
| Electron.SaveThenLoad | ghostwriter2/public/electron.js:89-134 | after a chapter write that succeeds, loading the same number returns the saved text whatever happens to the metadata, and loading another number returns what it returned before |
| Api.CheckRateLimit | ghostwriter2/src/services/ApiService.ts:52-81 | without a bridge it fails; a success reply is normalised (allowed defaults to false, count to 0, a missing or zero limit to 60, a missing or empty reset time to the current time, wait 0 if allowed else 60000); a failed check allows the call with count 0 and limit 60 |
| Api.WaitForRateLimit | ghostwriter2/src/services/ApiService.ts:154-163 | no wait when allowed or when the wait time is 0 or absent; otherwise the result's wait time |
| Api.CheckRateLimitWaitsOnlyWhenDenied | ghostwriter2/src/services/ApiService.ts:60-80 | after a check, a wait happens iff the bridge answered without allowing, and then lasts 60000 ms |
| Api.CalculateCost | ghostwriter2/src/services/ApiService.ts:114-131 | 0 for an unknown provider or model; otherwise the tokens priced per thousand |
| Api.CalculateCostNonNegative | ghostwriter2/src/services/ApiService.ts:114-131 | costs are non-negative, and output tokens cost at least as much as input tokens |
| Api.TrackedRecord | ghostwriter2/src/services/ApiService.ts:196-221 | on success the record carries the estimated tokens, their cost and `success: true`; on failure it has zero output tokens, zero cost, `success: false` and the error message; the endpoint defaults to "chat" |
| Api.SafeApiCallTrace | ghostwriter2/src/services/ApiService.ts:166-225 | no call is issued exactly when there is no bridge; otherwise the first call is the rate-limit check and the last is the tracking call |
| Api.SafeApiCallOrdering | ghostwriter2/src/services/ApiService.ts:179-224 | with a bridge: check first; a wait only when denied and without a second check; then increment, call and exactly one track, last. Without a bridge: no calls and a rejection |
| Api.SafeApiCallSettles | ghostwriter2/src/services/ApiService.ts:207-223 | the provider's value is returned after a success record; its error is rethrown after a failure record |
| Api.ApiService.SafeApiCall | ghostwriter2/src/services/ApiService.ts:166-225 | the calls issued step by step are the ordering trace, appended to the log |
| Api.UsageStats | ghostwriter2/src/services/ApiService.ts:139-150 | the stats of a success reply, or none |
| Api.CheckUsageLimits | ghostwriter2/src/services/ApiService.ts:228-279 | the totals are the sums of the three stats; the monthly warning iff the month's total calls exceed 1000, and likewise for the daily cost, weekly cost and spike rules; no other warning occurs, and the warnings appear without repetition in the order daily, weekly, monthly, spike; without a bridge, the single "Failed to check usage limits" warning and zero totals |
| Api.UsageWarnings | ghostwriter2/src/services/ApiService.ts:246-262 | every warning is one of the four for the given totals, and they appear without repetition in the order daily, weekly, monthly, spike |
| Api.UsageWarningsThresholds | ghostwriter2/src/services/ApiService.ts:246-262 | each warning is pushed exactly when its threshold is exceeded |
| Api.WarningText | ghostwriter2/src/services/ApiService.ts:246-262 | the monthly-usage text holds the request count's decimal rendering between its fixed prefix and suffix |
| Api.MonthlyWarningStatesCount | ghostwriter2/src/services/ApiService.ts:255 | the request count can be read back from the monthly-usage text |
| Api.FailedStatsGiveQuietReport | ghostwriter2/src/services/ApiService.ts:147-150 | if every stats request fails, the totals are zero and there are no warnings |
| Api.ServiceRegistry.GetInstance | ghostwriter2/src/services/ApiService.ts:44-49 | the service is created on the first call only, and the same object is returned afterwards |
| Api.GetInstanceTwice | ghostwriter2/src/services/ApiService.ts:44-49 | two calls return the same object |

## Left out

- Strings are sequences of Unicode characters. JavaScript measures lengths in UTF-16 code units, so the length limits (names, titles, keys, masking, the 100-character input cap) differ for text outside the Basic Multilingual Plane.
- Disk, dialogs, `JSON.parse`/`stringify`, `localStorage`, the secure key store and the bridge are not modelled as code. Their answers are parameters: `FileRead`, `SaveDialogResult`, `OpenDialogResult`, the key listings, the store replies, `RateReply` and `StatsReply`.
- Timers are not modelled as time. The auto-save debounce, the suggestion delays and the notification expiry appear only as the state changes they cause (`SuggestionsReady`, `NotificationCenter.Remove`, `AutoRemoval`).
- The auto-save (`saveCurrentChapter` and its effect) and its HTML-to-text conversion are not modelled. It runs before select and create; it uses the DOM and does not change the window's chapter state.
- Failure paths of create-novel in the window, and those of open-novel before the project is set, show alerts or log and change no state; they are not modelled. The success paths are `Workspace.NovelCreated` and `Workspace.NovelOpened`. The one open-novel failure that does change state, a throw after the project is set, is modelled by `Workspace.NovelOpenThrewAfterProjectSet`.
- App.Workspace.NovelOpened: metadata that parses but whose `chapters` is missing or holds an entry without `number` is not an input of this method; that path is `Workspace.NovelOpenThrewAfterProjectSet`. What auto-save then writes into the new folder is not modelled, since auto-save is left out.
- The `loading` flags, `alert`/`confirm` dialogs, console output, the theme's document classes, hover state, and the window's assistant-active and auto-save toggles are presentation only.
- `toLocaleString` and `toLocaleDateString` are not modelled: the locale date is a parameter of `FormatDate`, and word totals are numbers. `toFixed(2)` in the usage warnings is a parameter of `WarningText`.
- Api.CalculateCost: costs are exact rationals, and the source's floating-point rounding is not modelled. The usage thresholds and spike ratio are also compared exactly.
- Api.CalculateCost: lookups of keys that exist on every JavaScript object, such as "constructor", are treated as unknown providers.
- App.ReplaceFirst: the `$` substitution patterns of `String.prototype.replace` in the replacement text are not modelled.
- Notifications.WithDefaults: a field the caller sets explicitly to `undefined` still overrides the default in the source; here it counts as absent.
- Several `new Date().toISOString()` calls within one host handler are modelled as one time value.
- App.Workspace.ChapterCreate: the invariant is kept only when the clock-derived id is fresh, which the source does not guarantee.
- The rate-limit and usage stores behind the bridge are not modelled: no file of the repository implements them.
- `isElectronAPIAvailable` and `handleAsyncOperation` (validation.ts lines 111-134) are not modelled. They are an environment probe and a generic try/catch wrapper with no logic of their own.
- SettingsModal.SettingsPanel.LoadSettings: a stored theme or provider preference that `JSON.parse` rejects (also caught, leaving the settings unchanged) is not modelled; the stored values are taken as already parsed.
- SettingsModal.SettingsPanel.AddApiKey: the reload after a store is taken not to reject; a rejected listing there is not modelled.
- SettingsModal.SettingsPanel.RemoveApiKey: likewise, the reload after a delete is taken not to reject.
- Electron.MissingMetadataMessage: the path is the folder path followed by `/novel.json`; the normalisation `path.join` performs (a trailing separator, `..` segments, Windows separators) is not modelled.
- Electron.NovelFolder.SaveChapter: a failed metadata write is taken to leave `novel.json` as it was; a partly written file is not modelled. Parsed metadata without a `chapters` array, which makes `findIndex` throw, is not modelled.
- Validation.ValidateNovelNameAsWritten: the reset of the shared regex's `lastIndex` by `sanitizeFileName` is not threaded through the as-written model; the counterexample assumes no sanitising call between the two validations.
- The Electron window lifecycle and `useNotifications`' error outside its provider are not modelled.

## Findings

| source | as written | input that shows it | evidently intended | confidence | as-written member | corrected member |
|---|---|---|---|---|---|---|
| ghostwriter2/src/utils/validation.ts:44 | `FORBIDDEN_CHARS` has the global flag and is shared by all calls. `.test` resumes at the `lastIndex` a previous match left behind. | `validateNovelName("a?")` rejects and leaves `lastIndex` at 2; then `validateNovelName("?")` finds no match from index 2 and accepts, provided no `sanitizeFileName` call ran in between (its global `.replace` at line 103 resets `lastIndex` to 0) | every call checks the whole trimmed name | not executed; high | Validation.ForbiddenCharMissedAfterEarlierMatch | Validation.ValidateNovelName |
| ghostwriter2/src/App.tsx:302 | `openExistingNovel` calls the `loadChapterContent` closure from the render that showed the selection screen, where no project was open. That closure returns ''. | open a novel whose `chapter-01.md` holds "Once": the first chapter is shown empty | the first chapter shows its file's text | not executed; medium (depends on React closure capture) | App.OpeningDropsFirstChapterText | App.OpenedChapters |
