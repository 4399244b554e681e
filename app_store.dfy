/** The client-side application store (store/useAppStore.ts): the editor's
    open files and the active file, the uploaded-file map, the chat
    message list and the token counter. Each action is a reducer from the
    old state to the new one; the flags and setters that only the user
    interface reads are not part of this model. */
module AppStore {
  import opened Wrappers
  import opened Types
  import opened Js
  import opened Tokens

  /** The parts of the store the actions below change. */
  datatype AppState = AppState(
    editor: EditorState,
    uploadedFiles: map<string, string>,
    messages: seq<ChatMessage>,
    totalTokens: nat)

  /** A message as passed to `addMessage`, before it gets an id and a
      timestamp. */
  datatype NewMessage = NewMessage(
    role: Role,
    content: string,
    tokenUsage: Option<TokenUsage>,
    images: Option<seq<string>>,
    generatedMedia: Option<seq<GeneratedMedia>>)

  // ---------------------------------------------------------------------
  // The editor invariant

  predicate IsOpen(files: seq<OpenFile>, path: string) {
    exists i :: 0 <= i < |files| && files[i].path == path
  }

  predicate PathsDistinct(files: seq<OpenFile>) {
    forall i, j :: 0 <= i < j < |files| ==> files[i].path != files[j].path
  }

  /** No path is open twice, and the active file, if any, is open. */
  predicate ValidEditor(e: EditorState) {
    PathsDistinct(e.openFiles) && (e.activeFile.Some? ==> IsOpen(e.openFiles, e.activeFile.value))
  }

  /** The store's initial state. */
  function InitialState(): (s: AppState)
    ensures ValidEditor(s.editor)
    ensures s.editor.openFiles == [] && s.editor.activeFile.None?
    ensures s.uploadedFiles == map[] && s.messages == [] && s.totalTokens == 0
  {
    AppState(EditorState([], None), map[], [], 0)
  }

  // ---------------------------------------------------------------------
  // List helpers

  /** `findIndex(f => f.path === path)`. */
  function IndexOfPath(files: seq<OpenFile>, path: string): (i: int)
    ensures -1 <= i < |files|
    ensures i >= 0 ==> files[i].path == path && forall j :: 0 <= j < i ==> files[j].path != path
    ensures i == -1 <==> !IsOpen(files, path)
    decreases |files|
  {
    if |files| == 0 then -1
    else if files[0].path == path then 0
    else
      var k := IndexOfPath(files[1..], path);
      if k == -1 then
        assert forall j :: 1 <= j < |files| ==> files[j] == files[1..][j - 1];
        -1
      else
        assert files[1..][k] == files[k + 1];
        k + 1
  }

  /** `filter(f => f.path !== path)`. */
  function WithoutPath(files: seq<OpenFile>, path: string): (r: seq<OpenFile>)
    ensures |r| <= |files|
    decreases |files|
  {
    if |files| == 0 then []
    else (if files[0].path != path then [files[0]] else []) + WithoutPath(files[1..], path)
  }

  /** The filter keeps exactly the entries with another path. */
  lemma {:induction false} WithoutPathMembers(files: seq<OpenFile>, path: string)
    ensures forall f :: f in WithoutPath(files, path) <==> f in files && f.path != path
    decreases |files|
  {
    if |files| > 0 {
      WithoutPathMembers(files[1..], path);
      assert files == [files[0]] + files[1..];
    }
  }

  /** `map(f => f.path === path ? { ...f, content } : f)`. */
  function WithContent(files: seq<OpenFile>, path: string, content: string): (r: seq<OpenFile>)
    ensures |r| == |files|
    ensures forall i :: 0 <= i < |files| ==>
      && r[i].path == files[i].path && r[i].language == files[i].language
      && (files[i].path == path ==> r[i].content == content)
      && (files[i].path != path ==> r[i] == files[i])
  {
    seq(|files|, i requires 0 <= i < |files| => if files[i].path == path then files[i].(content := content) else files[i])
  }

  /** The editor after closing `path`; shared by `closeFile` and
      `removeUploadedFile`. */
  function CloseIn(e: EditorState, path: string): (r: EditorState)
    ensures r.openFiles == WithoutPath(e.openFiles, path)
    ensures e.activeFile == Some(path) && |r.openFiles| > 0 ==> r.activeFile == Some(r.openFiles[|r.openFiles| - 1].path)
    ensures e.activeFile == Some(path) && |r.openFiles| == 0 ==> r.activeFile.None?
    ensures e.activeFile != Some(path) ==> r.activeFile == e.activeFile
  {
    var files := WithoutPath(e.openFiles, path);
    var active := if e.activeFile == Some(path) then (if |files| > 0 then Some(files[|files| - 1].path) else None)
                  else e.activeFile;
    EditorState(files, active)
  }

  // ---------------------------------------------------------------------
  // Editor actions

  /** `openFile(path, content, language)`: an open path gets the new
      content in place, a new one is appended; either way it becomes
      active. */
  function OpenFileAction(s: AppState, path: string, content: string, language: Option<string>): (r: AppState)
    ensures r.uploadedFiles == s.uploadedFiles && r.messages == s.messages && r.totalTokens == s.totalTokens
    ensures r.editor.activeFile == Some(path)
    ensures IsOpen(r.editor.openFiles, path)
  {
    var files := s.editor.openFiles;
    var i := IndexOfPath(files, path);
    if i >= 0 then
      var files' := files[i := files[i].(content := content)];
      assert files'[i].path == path;
      s.(editor := s.editor.(activeFile := Some(path), openFiles := files'))
    else
      var files' := files + [OpenFile(path, content, language)];
      assert files'[|files|].path == path;
      s.(editor := s.editor.(activeFile := Some(path), openFiles := files'))
  }

  /** `closeFile(path)`. */
  function CloseFileAction(s: AppState, path: string): (r: AppState)
    ensures r.editor == CloseIn(s.editor, path)
    ensures r.uploadedFiles == s.uploadedFiles && r.messages == s.messages && r.totalTokens == s.totalTokens
  {
    s.(editor := CloseIn(s.editor, path))
  }

  /** `setActiveFile(path)`, which does not check that `path` is open. */
  function SetActiveFileAction(s: AppState, path: string): (r: AppState)
    ensures r.editor.activeFile == Some(path) && r.editor.openFiles == s.editor.openFiles
    ensures r.uploadedFiles == s.uploadedFiles && r.messages == s.messages && r.totalTokens == s.totalTokens
  {
    s.(editor := s.editor.(activeFile := Some(path)))
  }

  /** `updateFileContent(path, content)`. */
  function UpdateFileContentAction(s: AppState, path: string, content: string): (r: AppState)
    ensures r.editor.openFiles == WithContent(s.editor.openFiles, path, content)
    ensures r.editor.activeFile == s.editor.activeFile
    ensures r.uploadedFiles == s.uploadedFiles && r.messages == s.messages && r.totalTokens == s.totalTokens
  {
    s.(editor := s.editor.(openFiles := WithContent(s.editor.openFiles, path, content)))
  }

  /** Re-opening an open path changes only that entry's content: position,
      language and the other entries stay, and the list keeps its length. */
  lemma OpenExistingReplacesContent(s: AppState, path: string, content: string, language: Option<string>, k: nat)
    requires PathsDistinct(s.editor.openFiles) && k < |s.editor.openFiles| && s.editor.openFiles[k].path == path
    ensures var files := s.editor.openFiles;
      && OpenFileAction(s, path, content, language).editor.openFiles == files[k := files[k].(content := content)]
      && |OpenFileAction(s, path, content, language).editor.openFiles| == |files|
  {
    var i := IndexOfPath(s.editor.openFiles, path);
    assert i == k;
  }

  /** Opening a new path appends it with the given content and language. */
  lemma OpenNewAppends(s: AppState, path: string, content: string, language: Option<string>)
    requires !IsOpen(s.editor.openFiles, path)
    ensures OpenFileAction(s, path, content, language).editor.openFiles == s.editor.openFiles + [OpenFile(path, content, language)]
  {
  }

  /** The first entry with a path is the one `findIndex` finds. */
  lemma IndexOfFirst(files: seq<OpenFile>, path: string, k: nat)
    requires k < |files| && files[k].path == path
    requires forall j :: 0 <= j < k ==> files[j].path != path
    ensures IndexOfPath(files, path) == k
  {
    var i := IndexOfPath(files, path);
    assert i != -1;
  }

  /** Opening the same file twice is opening it once. */
  lemma OpenFileIdempotent(s: AppState, path: string, content: string, language: Option<string>)
    ensures var once := OpenFileAction(s, path, content, language);
      OpenFileAction(once, path, content, language) == once
  {
    var files := s.editor.openFiles;
    var once := OpenFileAction(s, path, content, language);
    var i := IndexOfPath(files, path);
    if i >= 0 {
      IndexOfFirst(once.editor.openFiles, path, i);
    } else {
      assert IndexOfPath(once.editor.openFiles, path) == |files|;
    }
  }

  lemma OpenFilePreservesValid(s: AppState, path: string, content: string, language: Option<string>)
    requires ValidEditor(s.editor)
    ensures ValidEditor(OpenFileAction(s, path, content, language).editor)
  {
    var files := s.editor.openFiles;
    var files' := OpenFileAction(s, path, content, language).editor.openFiles;
    var i := IndexOfPath(files, path);
    if i >= 0 {
      assert forall j :: 0 <= j < |files| ==> files'[j].path == files[j].path;
    } else {
      assert forall j :: 0 <= j < |files| ==> files'[j] == files[j];
    }
  }

  /** With distinct paths, closing an open file removes exactly its entry
      and keeps the others in order. */
  lemma {:induction false} CloseRemovesEntry(files: seq<OpenFile>, k: nat)
    requires PathsDistinct(files) && k < |files|
    ensures WithoutPath(files, files[k].path) == files[..k] + files[k + 1..]
    decreases |files|
  {
    if k == 0 {
      CloseHead(files);
    } else {
      var p := files[k].path;
      DistinctTail(files);
      assert WithoutPath(files, p) == [files[0]] + WithoutPath(files[1..], p);
      CloseRemovesEntry(files[1..], k - 1);
      assert files[1..][k - 1] == files[k];
      assert files[1..][..k - 1] == files[1..k];
      assert files[1..][k..] == files[k + 1..];
      assert [files[0]] + (files[1..k] + files[k + 1..]) == files[..k] + files[k + 1..];
    }
  }

  lemma DistinctTail(files: seq<OpenFile>)
    requires PathsDistinct(files) && |files| > 0
    ensures PathsDistinct(files[1..])
    ensures forall f :: f in files[1..] ==> f.path != files[0].path
  {
    forall f | f in files[1..] ensures f.path != files[0].path {
      var j :| 0 <= j < |files[1..]| && files[1..][j] == f;
      assert files[j + 1] == f;
    }
  }

  /** Closing the first entry's path leaves the rest. */
  lemma CloseHead(files: seq<OpenFile>)
    requires PathsDistinct(files) && |files| > 0
    ensures WithoutPath(files, files[0].path) == files[1..]
  {
    DistinctTail(files);
    WithoutAbsent(files[1..], files[0].path);
  }

  /** Closing a path that is not open changes no entry. */
  lemma {:induction false} WithoutAbsent(files: seq<OpenFile>, path: string)
    requires forall f :: f in files ==> f.path != path
    ensures WithoutPath(files, path) == files
    decreases |files|
  {
    if |files| > 0 {
      assert forall f :: f in files[1..] ==> f in files;
      WithoutAbsent(files[1..], path);
      assert [files[0]] + files[1..] == files;
    }
  }

  /** Filtering keeps paths distinct. */
  lemma {:induction false} WithoutKeepsDistinct(files: seq<OpenFile>, path: string)
    requires PathsDistinct(files)
    ensures PathsDistinct(WithoutPath(files, path))
    decreases |files|
  {
    if |files| > 0 {
      WithoutKeepsDistinct(files[1..], path);
      WithoutPathMembers(files[1..], path);
      var rest := WithoutPath(files[1..], path);
      forall f | f in rest ensures f.path != files[0].path {
        var j :| 0 <= j < |files[1..]| && files[1..][j] == f;
        assert files[j + 1] == f;
      }
    }
  }

  /** Closing a file leaves no entry with its path and keeps all others. */
  lemma CloseFileDropsPath(s: AppState, path: string)
    ensures !IsOpen(CloseFileAction(s, path).editor.openFiles, path)
    ensures forall f :: f in s.editor.openFiles && f.path != path ==> f in CloseFileAction(s, path).editor.openFiles
  {
    var files' := CloseFileAction(s, path).editor.openFiles;
    WithoutPathMembers(s.editor.openFiles, path);
    forall i | 0 <= i < |files'| ensures files'[i].path != path {
      assert files'[i] in files';
    }
  }

  lemma CloseFilePreservesValid(s: AppState, path: string)
    requires ValidEditor(s.editor)
    ensures ValidEditor(CloseFileAction(s, path).editor)
  {
    var e := s.editor;
    var e' := CloseFileAction(s, path).editor;
    WithoutKeepsDistinct(e.openFiles, path);
    WithoutPathMembers(e.openFiles, path);
    if e'.activeFile.Some? {
      var a := e'.activeFile.value;
      if e.activeFile == Some(path) {
        assert e'.openFiles[|e'.openFiles| - 1].path == a;
      } else {
        var i :| 0 <= i < |e.openFiles| && e.openFiles[i].path == a;
        assert e.openFiles[i] in e'.openFiles;
        var j :| 0 <= j < |e'.openFiles| && e'.openFiles[j] == e.openFiles[i];
      }
    }
  }

  /** Closing a newly opened file restores the list of open files. */
  lemma CloseUndoesOpen(s: AppState, path: string, content: string, language: Option<string>)
    requires !IsOpen(s.editor.openFiles, path)
    ensures CloseFileAction(OpenFileAction(s, path, content, language), path).editor.openFiles == s.editor.openFiles
  {
    var files := s.editor.openFiles;
    assert forall f :: f in files ==> f.path != path by {
      forall f | f in files ensures f.path != path {
        var i :| 0 <= i < |files| && files[i] == f;
      }
    }
    WithoutAbsent(files, path);
    WithoutAppend(files, OpenFile(path, content, language), path);
  }

  lemma {:induction false} WithoutAppend(files: seq<OpenFile>, f: OpenFile, path: string)
    requires f.path == path
    ensures WithoutPath(files + [f], path) == WithoutPath(files, path)
    decreases |files|
  {
    if |files| == 0 {
      assert [f][1..] == [];
    } else {
      WithoutAppend(files[1..], f, path);
      assert (files + [f])[1..] == files[1..] + [f];
    }
  }

  /** `setActiveFile` keeps the invariant when the path is open. */
  lemma SetActiveFileOpenPreservesValid(s: AppState, path: string)
    requires ValidEditor(s.editor) && IsOpen(s.editor.openFiles, path)
    ensures ValidEditor(SetActiveFileAction(s, path).editor)
  {
  }

  /** ... and breaks it when it is not: from the initial state, activating
      any path leaves the active file pointing at nothing open. */
  lemma SetActiveFileCanBreakValid(path: string)
    ensures ValidEditor(InitialState().editor)
    ensures !ValidEditor(SetActiveFileAction(InitialState(), path).editor)
  {
  }

  /** Updating the content of a path that is not open changes nothing. */
  lemma UpdateAbsentIsNoOp(s: AppState, path: string, content: string)
    requires !IsOpen(s.editor.openFiles, path)
    ensures UpdateFileContentAction(s, path, content) == s
  {
    var files := s.editor.openFiles;
    var files' := UpdateFileContentAction(s, path, content).editor.openFiles;
    assert forall i :: 0 <= i < |files| ==> files'[i] == files[i];
  }

  lemma UpdateFileContentPreservesValid(s: AppState, path: string, content: string)
    requires ValidEditor(s.editor)
    ensures ValidEditor(UpdateFileContentAction(s, path, content).editor)
  {
    var files := s.editor.openFiles;
    var files' := UpdateFileContentAction(s, path, content).editor.openFiles;
    if s.editor.activeFile.Some? {
      var i :| 0 <= i < |files| && files[i].path == s.editor.activeFile.value;
      assert files'[i].path == files[i].path;
    }
  }

  // ---------------------------------------------------------------------
  // Uploaded files

  /** `addUploadedFile(path, content)`: inserts or overwrites one key. */
  function AddUploadedFileAction(s: AppState, path: string, content: string): (r: AppState)
    ensures r.uploadedFiles.Keys == s.uploadedFiles.Keys + {path}
    ensures r.uploadedFiles[path] == content
    ensures forall p :: p in s.uploadedFiles && p != path ==> r.uploadedFiles[p] == s.uploadedFiles[p]
    ensures r.editor == s.editor && r.messages == s.messages && r.totalTokens == s.totalTokens
  {
    s.(uploadedFiles := s.uploadedFiles[path := content])
  }

  /** `removeUploadedFile(path)`: deletes the key and closes the file. */
  function RemoveUploadedFileAction(s: AppState, path: string): (r: AppState)
    ensures r.uploadedFiles.Keys == s.uploadedFiles.Keys - {path}
    ensures forall p :: p in r.uploadedFiles ==> r.uploadedFiles[p] == s.uploadedFiles[p]
    ensures r.messages == s.messages && r.totalTokens == s.totalTokens
  {
    s.(uploadedFiles := s.uploadedFiles - {path}, editor := CloseIn(s.editor, path))
  }

  /** Removing an upload closes its file exactly as `closeFile` does. */
  lemma RemoveUploadedFileCloses(s: AppState, path: string)
    ensures RemoveUploadedFileAction(s, path).editor == CloseFileAction(s, path).editor
  {
  }

  lemma RemoveUploadedFilePreservesValid(s: AppState, path: string)
    requires ValidEditor(s.editor)
    ensures ValidEditor(RemoveUploadedFileAction(s, path).editor)
  {
    CloseFilePreservesValid(s, path);
  }

  /** Removing a newly added upload restores the map. */
  lemma RemoveUndoesAdd(s: AppState, path: string, content: string)
    requires path !in s.uploadedFiles
    ensures RemoveUploadedFileAction(AddUploadedFileAction(s, path, content), path).uploadedFiles == s.uploadedFiles
  {
  }

  // ---------------------------------------------------------------------
  // Messages and tokens

  /** `addMessage(message)` at clock reading `now`: the id is the decimal
      text of `now` and the timestamp is `now`. */
  function AddMessageAction(s: AppState, message: NewMessage, now: nat): (r: AppState)
    ensures |r.messages| == |s.messages| + 1 && r.messages[..|s.messages|] == s.messages
    ensures var m := r.messages[|s.messages|];
      && m.id == NatToString(now) && m.timestamp == now
      && m.role == message.role && m.content == message.content && m.tokenUsage == message.tokenUsage
      && m.images == message.images && m.generatedMedia == message.generatedMedia
    ensures r.editor == s.editor && r.uploadedFiles == s.uploadedFiles && r.totalTokens == s.totalTokens
  {
    var m := ChatMessage(NatToString(now), message.role, message.content, now,
                         message.tokenUsage, message.images, message.generatedMedia);
    s.(messages := s.messages + [m])
  }

  /** Message ids are the clock reading: two messages get the same id
      exactly when they are added in the same millisecond. */
  lemma MessageIdsMatchClock(a: nat, b: nat)
    ensures NatToString(a) == NatToString(b) <==> a == b
  {
    NatToStringRoundTrip(a);
    NatToStringRoundTrip(b);
  }

  /** `clearMessages()`. */
  function ClearMessagesAction(s: AppState): (r: AppState)
    ensures r.messages == []
    ensures r.editor == s.editor && r.uploadedFiles == s.uploadedFiles && r.totalTokens == s.totalTokens
  {
    s.(messages := [])
  }

  /** `addTokenUsage(usage)`. */
  function AddTokenUsageAction(s: AppState, usage: TokenUsage): (r: AppState)
    ensures r.totalTokens == s.totalTokens + usage.totalTokens
    ensures r.editor == s.editor && r.uploadedFiles == s.uploadedFiles && r.messages == s.messages
  {
    s.(totalTokens := s.totalTokens + usage.totalTokens)
  }

  /** `resetTokenUsage()`. */
  function ResetTokenUsageAction(s: AppState): (r: AppState)
    ensures r.totalTokens == 0
    ensures r.editor == s.editor && r.uploadedFiles == s.uploadedFiles && r.messages == s.messages
  {
    s.(totalTokens := 0)
  }

  /** A run of `addTokenUsage` calls, in order. */
  function AddAllUsage(s: AppState, usages: seq<TokenUsage>): AppState
    decreases |usages|
  {
    if |usages| == 0 then s else AddAllUsage(AddTokenUsageAction(s, usages[0]), usages[1..])
  }

  /** After a reset, the store's counter agrees with the token manager's
      session total over the same usages. */
  lemma {:induction false} CounterAgreesWithSession(s: AppState, usages: seq<TokenUsage>)
    ensures AddAllUsage(s, usages).totalTokens == s.totalTokens + TotalTokensOf(usages)
    ensures AddAllUsage(ResetTokenUsageAction(s), usages).totalTokens == TotalTokensOf(usages)
    decreases |usages|
  {
    if |usages| > 0 {
      CounterAgreesWithSession(AddTokenUsageAction(s, usages[0]), usages[1..]);
      CounterAgreesWithSession(AddTokenUsageAction(ResetTokenUsageAction(s), usages[0]), usages[1..]);
    }
  }
}
