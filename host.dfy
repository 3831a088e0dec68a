/**
  The host-process file handlers of `public/electron.js`: the chapter file
  name shared by `save-chapter` and `load-chapter`, the `novel.json` metadata
  that `create-novel` writes and `save-chapter` updates, and the replies the
  five handlers send back over the bridge. Dialogs, the clock and filesystem
  failures are oracles: their outcomes are parameters.
*/
module Electron {
  import opened Text
  import opened Wrappers

  /** One entry of `novel.json`'s `chapters` list. Timestamps are ISO strings. */
  datatype ChapterEntry = ChapterEntry(number: nat, title: string, created: string, lastModified: string)

  /** The contents of `novel.json`. */
  datatype NovelMetadata = NovelMetadata(title: string, created: string, lastModified: string, chapters: seq<ChapterEntry>)

  // ---------------------------------------------------------------------------
  // Chapter file names

  /** `chapter-${n.toString().padStart(2, '0')}.md`, used by both save and load. */
  function ChapterFileName(n: nat): (r: string)
    ensures "chapter-" <= r && r[|r| - 3..] == ".md"
    ensures n < 10 ==> r == "chapter-0" + [DigitChar(n)] + ".md"
    ensures n >= 10 ==> r == "chapter-" + NatToString(n) + ".md"
  {
    "chapter-" + PadStart(NatToString(n), 2, '0') + ".md"
  }

  /** Different chapter numbers are stored in different files, so saving one
      chapter never overwrites another. */
  lemma ChapterFileNameInjective(a: nat, b: nat)
    requires ChapterFileName(a) == ChapterFileName(b)
    ensures a == b
  {
    var fa, fb := ChapterFileName(a), ChapterFileName(b);
    var ma, mb := PadStart(NatToString(a), 2, '0'), PadStart(NatToString(b), 2, '0');
    assert fa == "chapter-" + ma + ".md";
    assert fb == "chapter-" + mb + ".md";
    assert ma == fa[8..|fa| - 3];
    assert mb == fb[8..|fb| - 3];
    if a < 10 && b < 10 {
      assert ma[1] == DigitChar(a) && mb[1] == DigitChar(b);
    } else if a >= 10 && b >= 10 {
      NatToStringInjective(a, b);
    } else {
      assert false;
    }
  }

  // ---------------------------------------------------------------------------
  // novel.json

  /** The metadata `create-novel` writes for a new novel. */
  function NewNovelMetadata(novelName: string, now: string): (m: NovelMetadata)
    ensures m.title == novelName && m.chapters == []
    ensures m.created == now && m.lastModified == now
  {
    NovelMetadata(novelName, now, now, [])
  }

  /** `metadata.chapters.findIndex(ch => ch.number === n)`. */
  function FindChapterIndex(chapters: seq<ChapterEntry>, n: nat): (r: Option<nat>)
    ensures r.None? <==> forall i :: 0 <= i < |chapters| ==> chapters[i].number != n
    ensures r.Some? ==> r.value < |chapters| && chapters[r.value].number == n
    ensures r.Some? ==> forall i :: 0 <= i < r.value ==> chapters[i].number != n
  {
    if chapters == [] then None
    else if chapters[0].number == n then Some(0)
    else match FindChapterIndex(chapters[1..], n)
      case None => None
      case Some(i) => Some(i + 1)
  }

  /** How `save-chapter` updates the metadata for chapter `n` at time `now`:
      an existing entry gets a new `lastModified`, a missing one is appended,
      and the novel's own `lastModified` is set. */
  function RecordChapterSave(meta: NovelMetadata, n: nat, now: string): (r: NovelMetadata)
    ensures r.title == meta.title && r.created == meta.created && r.lastModified == now
    ensures FindChapterIndex(meta.chapters, n).Some? ==>
      var i := FindChapterIndex(meta.chapters, n).value;
      && |r.chapters| == |meta.chapters|
      && r.chapters[i] == meta.chapters[i].(lastModified := now)
      && forall j :: 0 <= j < |meta.chapters| && j != i ==> r.chapters[j] == meta.chapters[j]
    ensures FindChapterIndex(meta.chapters, n).None? ==>
      r.chapters == meta.chapters + [ChapterEntry(n, "Chapter " + NatToString(n), now, now)]
  {
    var chapters := match FindChapterIndex(meta.chapters, n)
      case Some(i) => meta.chapters[i := meta.chapters[i].(lastModified := now)]
      case None => meta.chapters + [ChapterEntry(n, "Chapter " + NatToString(n), now, now)];
    meta.(chapters := chapters, lastModified := now)
  }

  /** No chapter number occurs twice in the list. */
  predicate UniqueNumbers(chapters: seq<ChapterEntry>) {
    forall i, j :: 0 <= i < j < |chapters| ==> chapters[i].number != chapters[j].number
  }

  /** Saving keeps the chapter numbers unique and leaves exactly one entry for `n`. */
  lemma RecordChapterSaveKeepsNumbersUnique(meta: NovelMetadata, n: nat, now: string)
    requires UniqueNumbers(meta.chapters)
    ensures var r := RecordChapterSave(meta, n, now);
      && UniqueNumbers(r.chapters)
      && exists i :: 0 <= i < |r.chapters| && r.chapters[i].number == n
  {
    var r := RecordChapterSave(meta, n, now);
    match FindChapterIndex(meta.chapters, n)
    case Some(i) =>
      assert r.chapters[i].number == n;
      forall a, b | 0 <= a < b < |r.chapters| ensures r.chapters[a].number != r.chapters[b].number {
        assert r.chapters[a].number == meta.chapters[a].number;
        assert r.chapters[b].number == meta.chapters[b].number;
      }
    case None =>
      assert r.chapters[|meta.chapters|].number == n;
  }

  /** Saving the same chapter again only refreshes timestamps: it never adds a second entry. */
  lemma RecordChapterSaveTwiceAddsOnce(meta: NovelMetadata, n: nat, now1: string, now2: string)
    ensures |RecordChapterSave(RecordChapterSave(meta, n, now1), n, now2).chapters|
         == |RecordChapterSave(meta, n, now1).chapters|
  {
    var once := RecordChapterSave(meta, n, now1);
    if FindChapterIndex(meta.chapters, n).None? {
      assert once.chapters[|meta.chapters|].number == n;
    }
  }

  // ---------------------------------------------------------------------------
  // Bridge replies

  /** The outcome of `fs.readFile`. */
  datatype FileRead = ReadOk(content: string) | ReadError(code: string, message: string)

  const MissingFileMessage := "ENOENT: no such file or directory"

  /** What `fs.readFile(name)` yields on a folder whose chapter files are `files`. */
  function ReadFile(files: map<string, string>, name: string): FileRead {
    if name in files then ReadOk(files[name]) else ReadError("ENOENT", MissingFileMessage)
  }

  datatype LoadChapterReply = Loaded(content: string) | LoadFailed(error: string)

  /** `load-chapter`'s reply for a read outcome: a missing file is an empty new
      chapter, any other read error is a failure. */
  function LoadChapterReplyFor(read: FileRead): (r: LoadChapterReply)
    ensures read.ReadOk? ==> r == Loaded(read.content)
    ensures read.ReadError? && read.code == "ENOENT" ==> r == Loaded("")
    ensures read.ReadError? && read.code != "ENOENT" ==> r == LoadFailed(read.message)
  {
    match read
    case ReadOk(c) => Loaded(c)
    case ReadError(code, message) => if code == "ENOENT" then Loaded("") else LoadFailed(message)
  }

  datatype SaveChapterReply = Saved | SaveFailed(error: string)

  datatype SaveDialogResult = SaveCanceled | SaveChosen(filePath: string)

  datatype CreateNovelReply = Created(path: string) | CreateCanceled | CreateFailed(error: string)

  /** `create-novel`: the reply, and the metadata written for the new novel.
      `failure` is the message of an error thrown by the dialog, `mkdir` or the write. */
  function CreateNovel(novelName: string, dialog: SaveDialogResult, failure: Option<string>, now: string): (r: (CreateNovelReply, Option<NovelMetadata>))
    ensures dialog.SaveCanceled? && failure.None? ==> r == (CreateCanceled, None)
    ensures failure.Some? ==> r == (CreateFailed(failure.value), None)
    ensures dialog.SaveChosen? && failure.None? ==>
      r == (Created(dialog.filePath), Some(NewNovelMetadata(novelName, now)))
  {
    if failure.Some? then (CreateFailed(failure.value), None)
    else match dialog
      case SaveCanceled => (CreateCanceled, None)
      case SaveChosen(p) => (Created(p), Some(NewNovelMetadata(novelName, now)))
  }

  datatype OpenDialogResult = OpenDialogResult(canceled: bool, filePaths: seq<string>)

  datatype SelectFolderReply = Selected(path: string) | SelectCanceled | SelectFailed(error: string)

  /** `select-novel-folder`: the first chosen path, or a cancellation. */
  function SelectNovelFolder(dialog: OpenDialogResult, failure: Option<string>): (r: SelectFolderReply)
    ensures failure.Some? ==> r == SelectFailed(failure.value)
    ensures failure.None? && !dialog.canceled && dialog.filePaths != [] ==> r == Selected(dialog.filePaths[0])
    ensures failure.None? && (dialog.canceled || dialog.filePaths == []) ==> r == SelectCanceled
  {
    if failure.Some? then SelectFailed(failure.value)
    else if !dialog.canceled && |dialog.filePaths| > 0 then Selected(dialog.filePaths[0])
    else SelectCanceled
  }

  datatype MetadataReply = MetadataLoaded(metadata: NovelMetadata) | MetadataFailed(error: string)

  /** `path.join(novelPath, 'novel.json')` for a folder path without a trailing separator. */
  function MetadataPath(novelPath: string): (p: string)
    ensures |p| == |novelPath| + 11 && p[..|novelPath|] == novelPath && p[|novelPath|..] == "/novel.json"
  {
    novelPath + "/novel.json"
  }

  /** Node's message for reading a file that does not exist: it names the path that was opened. */
  function MissingMetadataMessage(novelPath: string): (m: string)
    ensures |m| == |novelPath| + 53
    ensures m[..33] == "ENOENT: no such file or directory"
    ensures m[|m| - 12..] == "/novel.json'"
    ensures m[41..|m| - 1] == MetadataPath(novelPath)
  {
    "ENOENT: no such file or directory, open '" + MetadataPath(novelPath) + "'"
  }

  /** The folder's `novel.json`: absent, present but not valid JSON (with the
      parser's error message), or parsed. */
  datatype MetadataFile = Missing | Malformed(syntaxError: string) | Stored(metadata: NovelMetadata)

  /** `JSON.parse(await fs.readFile(metadataPath, 'utf8'))`: the metadata, or
      the message of the error the read or the parse throws. */
  function ReadMetadata(novelPath: string, f: MetadataFile): (r: Result<NovelMetadata, string>)
    ensures r.Success? <==> f.Stored?
    ensures f.Stored? ==> r.value == f.metadata
    ensures f.Missing? ==> r == Failure(MissingMetadataMessage(novelPath))
    ensures f.Malformed? ==> r == Failure(f.syntaxError)
  {
    match f
    case Missing => Failure(MissingMetadataMessage(novelPath))
    case Malformed(e) => Failure(e)
    case Stored(m) => Success(m)
  }

  /** One novel folder on disk: its chapter files by name and its `novel.json`. */
  class NovelFolder {
    const novelPath: string
    var chapterFiles: map<string, string>
    var metadataFile: MetadataFile

    /** The folder `create-novel` leaves behind. */
    constructor (novelPath: string, novelName: string, now: string)
      ensures this.novelPath == novelPath
      ensures chapterFiles == map[] && metadataFile == Stored(NewNovelMetadata(novelName, now))
    {
      this.novelPath := novelPath;
      chapterFiles := map[];
      metadataFile := Stored(NewNovelMetadata(novelName, now));
    }

    /** `save-chapter`: the chapter file is written first, then the metadata is
        read, updated and written back; the first step that throws ends the
        handler with that error's message. `chapterWrite` and `metadataWrite`
        are the errors the two `fs.writeFile` calls throw, if any. A failure after
        the chapter write leaves the chapter file written. */
    method SaveChapter(n: nat, content: string, now: string, chapterWrite: Option<string>, metadataWrite: Option<string>)
      returns (r: SaveChapterReply)
      modifies this
      ensures chapterWrite.Some? ==>
        r == SaveFailed(chapterWrite.value) && chapterFiles == old(chapterFiles) && metadataFile == old(metadataFile)
      ensures chapterWrite.None? ==> chapterFiles == old(chapterFiles)[ChapterFileName(n) := content]
      ensures chapterWrite.None? && !old(metadataFile).Stored? ==>
        r == SaveFailed(ReadMetadata(novelPath, old(metadataFile)).error) && metadataFile == old(metadataFile)
      ensures chapterWrite.None? && old(metadataFile).Stored? && metadataWrite.Some? ==>
        r == SaveFailed(metadataWrite.value) && metadataFile == old(metadataFile)
      ensures chapterWrite.None? && old(metadataFile).Stored? && metadataWrite.None? ==>
        r == Saved && metadataFile == Stored(RecordChapterSave(old(metadataFile).metadata, n, now))
    {
      if chapterWrite.Some? {
        return SaveFailed(chapterWrite.value);
      }
      chapterFiles := chapterFiles[ChapterFileName(n) := content];
      var read := ReadMetadata(novelPath, metadataFile);
      if read.Failure? {
        return SaveFailed(read.error);
      }
      if metadataWrite.Some? {
        return SaveFailed(metadataWrite.value);
      }
      metadataFile := Stored(RecordChapterSave(read.value, n, now));
      r := Saved;
    }

    /** `load-chapter`. */
    method LoadChapter(n: nat) returns (r: LoadChapterReply)
      ensures ChapterFileName(n) in chapterFiles ==> r == Loaded(chapterFiles[ChapterFileName(n)])
      ensures ChapterFileName(n) !in chapterFiles ==> r == Loaded("")
    {
      r := LoadChapterReplyFor(ReadFile(chapterFiles, ChapterFileName(n)));
    }

    /** `load-novel-metadata`. */
    method LoadNovelMetadata() returns (r: MetadataReply)
      ensures metadataFile.Stored? ==> r == MetadataLoaded(metadataFile.metadata)
      ensures metadataFile.Missing? ==> r == MetadataFailed(MissingMetadataMessage(novelPath))
      ensures metadataFile.Malformed? ==> r == MetadataFailed(metadataFile.syntaxError)
    {
      match ReadMetadata(novelPath, metadataFile)
      case Success(m) => r := MetadataLoaded(m);
      case Failure(e) => r := MetadataFailed(e);
    }
  }

  /** A chapter whose file write succeeds is what a later load of its number
      returns, whatever happens to the metadata, and a save of `n` leaves what
      a load of any other number returns unchanged. */
  method SaveThenLoad(folder: NovelFolder, n: nat, m: nat, content: string, now: string, metadataWrite: Option<string>)
    returns (loaded: LoadChapterReply, before: LoadChapterReply, after: LoadChapterReply)
    modifies folder
    ensures loaded == Loaded(content)
    ensures m != n ==> after == before
  {
    before := folder.LoadChapter(m);
    var _ := folder.SaveChapter(n, content, now, None, metadataWrite);
    loaded := folder.LoadChapter(n);
    after := folder.LoadChapter(m);
    if m != n {
      assert ChapterFileName(m) != ChapterFileName(n) by {
        if ChapterFileName(m) == ChapterFileName(n) { ChapterFileNameInjective(m, n); }
      }
    }
  }
}
