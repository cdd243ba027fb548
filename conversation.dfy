/**
 * The conversation controller: the per-browser-session state bag and the
 * handlers that update it and the temporary directory in place — saving,
 * restoring and removing the session file, export and import of the history,
 * model selection, clearing, and one submitted turn.
 */
module Conversation {
  import opened Wrappers
  import opened PyJson
  import opened EphemeralStore
  import opened History

  /** Display name to deployment id, as offered by the model selector. */
  const AvailableModels: map<string, string> := map[
    "GPT 4o" := "gpt-4o",
    "GPT 4.1" := "gpt-4.1",
    "GPT 3.5" := "gpt-35-turbo",
    "o4 mini" := "o4-mini"]

  const DefaultModel: string := "GPT 4o"

  /** One reading of the clock, in the four formats the app writes. */
  datatype Clock = Clock(iso: string, timeOfDay: string, compact: string, readable: string)

  /** The platform's temporary directory: the session files it holds, by session id. */
  class TempDir {
    var files: Files

    constructor (files: Files)
      ensures this.files == files
    {
      this.files := files;
    }
  }

  /** The state bag of one browser session. */
  class SessionState {
    const sessionId: string
    const tempDir: string
    const disk: TempDir

    var messages: seq<Json>
    var selectedModel: string
    var sessionInitialized: bool
    var sessionRestored: bool
    var restoredMessageCount: Option<nat>
    var conversationLoaded: bool
    var downloadData: Option<Json>
    var downloadFilename: Option<string>
    var exportText: Option<string>
    var lastSaveTime: Option<string>
    var saveFilePath: Option<string>
    var saveError: Option<string>
    var loadError: Option<string>

    /** The selected model is always one the selector offers. */
    predicate Valid()
      reads this
    {
      selectedModel in AvailableModels
    }

    /** The session file's path: `<tempDir>/<sessionId>.pkl`. */
    function SessionFilePath(): (path: string)
      ensures |path| == |tempDir| + |sessionId| + 5
      ensures path[..|tempDir|] == tempDir && path[|tempDir|..|path| - 4] == "/" + sessionId
      ensures path[|path| - 4..] == ".pkl"
    {
      tempDir + "/" + sessionId + ".pkl"
    }

    /** The state after the first run's defaults: the default model and an empty history. */
    constructor (sessionId: string, tempDir: string, disk: TempDir)
      ensures Valid()
      ensures this.sessionId == sessionId && this.tempDir == tempDir && this.disk == disk
      ensures messages == [] && selectedModel == DefaultModel
      ensures !sessionInitialized && !sessionRestored && !conversationLoaded
      ensures restoredMessageCount == None && downloadData == None && downloadFilename == None
      ensures exportText == None && lastSaveTime == None && saveFilePath == None
      ensures saveError == None && loadError == None
    {
      this.sessionId := sessionId;
      this.tempDir := tempDir;
      this.disk := disk;
      messages := [];
      selectedModel := DefaultModel;
      sessionInitialized, sessionRestored, conversationLoaded := false, false, false;
      restoredMessageCount, downloadData, downloadFilename := None, None, None;
      exportText, lastSaveTime, saveFilePath := None, None, None;
      saveError, loadError := None, None;
    }

    /**
     * Writes the history to the session file. An empty history is a successful
     * no-op; a failure is recorded in `saveError` and reported as false.
     */
    method SaveSessionData(now: Clock, fault: WriteFault) returns (ok: bool)
      modifies disk`files, this`lastSaveTime, this`saveFilePath, this`saveError
      ensures disk.files == Saved(old(disk.files), sessionId, messages, now.iso, fault)
      ensures ok <==> messages == [] || fault.NoFault?
      ensures lastSaveTime == if messages != [] && fault.NoFault? then Some(now.timeOfDay) else old(lastSaveTime)
      ensures saveFilePath == if messages != [] && fault.NoFault? then Some(SessionFilePath()) else old(saveFilePath)
      ensures saveError == if messages != [] && !fault.NoFault? then Some("Save failed: " + fault.error) else old(saveError)
    {
      if messages == [] {
        return true;
      }
      match fault {
        case NoFault =>
          disk.files := disk.files[sessionId := Intact(Record(Some(messages), now.iso, sessionId))];
          lastSaveTime := Some(now.timeOfDay);
          saveFilePath := Some(SessionFilePath());
          ok := true;
        case OpenFails(e) =>
          saveError := Some("Save failed: " + e);
          ok := false;
        case DumpFails(e, readBack) =>
          disk.files := disk.files[sessionId := Unreadable(readBack)];
          saveError := Some("Save failed: " + e);
          ok := false;
      }
    }

    /** Reads the session file back; a failure is recorded in `loadError`, never raised. */
    method LoadSessionData() returns (loaded: seq<Json>, count: nat)
      modifies this`loadError
      ensures loaded == Load(disk.files, sessionId).messages && count == |loaded|
      ensures loadError == if Load(disk.files, sessionId).error.Some? then Load(disk.files, sessionId).error else old(loadError)
    {
      var result := Load(disk.files, sessionId);
      if result.error.Some? {
        loadError := result.error;
      }
      loaded, count := result.messages, result.count;
    }

    /**
     * Removes the session file if it exists. True unless removing an existing
     * file raised, in which case the directory is left as it was.
     */
    method CleanupSessionData(removeFails: bool) returns (ok: bool)
      modifies disk`files
      ensures ok <==> sessionId !in old(disk.files) || !removeFails
      ensures disk.files == if ok then Removed(old(disk.files), sessionId) else old(disk.files)
    {
      if sessionId in disk.files {
        if removeFails {
          return false;
        }
        disk.files := disk.files - {sessionId};
      }
      ok := true;
    }

    /** Prepares the export document for download; false and no change on an empty history. */
    method SaveChatHistory(now: Clock) returns (ok: bool)
      modifies this`downloadData, this`downloadFilename
      ensures ok <==> messages != []
      ensures downloadData == if ok then Some(DocumentJson(ExportOf(messages, selectedModel, now.compact).value)) else old(downloadData)
      ensures downloadFilename == if ok then Some(DownloadFilename(now.compact)) else old(downloadFilename)
    {
      var doc := ExportOf(messages, selectedModel, now.compact);
      if doc.None? {
        return false;
      }
      downloadData := Some(DocumentJson(doc.value));
      downloadFilename := Some(DownloadFilename(now.compact));
      ok := true;
    }

    /**
     * Imports an uploaded document. On success the history is replaced
     * wholesale and marked as loaded from a file; on failure nothing changes.
     */
    method LoadChatHistory(upload: Upload, containerStr: Json -> string) returns (ok: bool, feedback: string)
      modifies this`messages, this`conversationLoaded
      ensures (ok, feedback) == ImportFeedback(upload, containerStr)
      ensures ok <==> ImportMessages(upload).Success?
      ensures messages == if ok then ImportMessages(upload).value else old(messages)
      ensures conversationLoaded == (ok || old(conversationLoaded))
    {
      var imported := ImportMessages(upload);
      if imported.Success? {
        messages := imported.value;
        conversationLoaded := true;
      }
      ok, feedback := ImportFeedback(upload, containerStr).0, ImportFeedback(upload, containerStr).1;
    }

    /**
     * The plain-text transcript: None on an empty history, else the header and
     * one block per entry, the blocks built up entry by entry. An entry without a role or
     * a content raises, and the exception text is returned as a failure.
     */
    method ExportChatAsText(now: Clock, containerStr: Json -> string) returns (r: Result<Option<string>, string>)
      ensures r == Transcript(messages, selectedModel, now.readable, containerStr)
    {
      var history := messages;
      if history == [] {
        return Success(None);
      }
      var header := Header(now.readable, selectedModel, |history|);
      var body := "";
      var i := 0;
      while i < |history|
        invariant 0 <= i <= |history|
        invariant Blocks(history[..i], containerStr).Success?
        invariant body == Blocks(history[..i], containerStr).value
      {
        var block := Block(history[i], i + 1, containerStr);
        BlocksStep(history, i, containerStr);
        if block.Failure? {
          BlocksPrefixFailure(history, i + 1, containerStr);
          return Failure(block.error);
        }
        body := body + block.value;
        i := i + 1;
      }
      assert history[..i] == history;
      r := Success(Some(header + body));
    }

    /** Switches the selected model; the history is not touched. */
    method ChangeModel(choice: string)
      requires choice in AvailableModels
      modifies this`selectedModel
      ensures selectedModel == choice && Valid()
    {
      if choice != selectedModel {
        selectedModel := choice;
      }
    }

    /** The Clear Chat handler: empties the history and the export buffers and removes the session file. */
    method ClearChat(removeFails: bool)
      modifies this`messages, this`downloadData, this`exportText, disk`files
      ensures messages == [] && downloadData == None && exportText == None
      ensures disk.files == if sessionId in old(disk.files) && removeFails then old(disk.files) else Removed(old(disk.files), sessionId)
    {
      messages := [];
      downloadData := None;
      exportText := None;
      var _ := CleanupSessionData(removeFails);
    }

    /**
     * The first-run restore: once per session, take the stored history if the
     * session file yields a non-empty one, else start empty.
     */
    method InitializeSession()
      modifies this`sessionInitialized, this`messages, this`sessionRestored, this`restoredMessageCount, this`loadError
      ensures sessionInitialized
      ensures old(sessionInitialized) ==>
        messages == old(messages) && sessionRestored == old(sessionRestored)
        && restoredMessageCount == old(restoredMessageCount) && loadError == old(loadError)
      ensures !old(sessionInitialized) ==>
        var stored := Load(disk.files, sessionId);
        && messages == stored.messages
        && sessionRestored == (stored.messages != [] || old(sessionRestored))
        && restoredMessageCount == (if stored.messages != [] then Some(|stored.messages|) else old(restoredMessageCount))
        && loadError == (if stored.error.Some? then stored.error else old(loadError))
    {
      if sessionInitialized {
        return;
      }
      sessionInitialized := true;
      var loaded, count := LoadSessionData();
      if loaded != [] {
        messages := loaded;
        sessionRestored := true;
        restoredMessageCount := Some(count);
      } else {
        messages := [];
      }
    }

    /** The one-time "loaded from file" notice: shown, and then cleared, on a non-empty history. */
    method ShowLoadedNotice() returns (shown: bool)
      modifies this`conversationLoaded
      ensures shown <==> messages != [] && old(conversationLoaded)
      ensures conversationLoaded == (old(conversationLoaded) && !shown)
    {
      shown := messages != [] && conversationLoaded;
      if shown {
        conversationLoaded := false;
      }
    }

    /**
     * One submitted turn: append the prompt and save; build the request from
     * the system prompt and the history; append the streamed reply, or the
     * error notice if building or streaming raised; save again. `sent` is the
     * request handed to the completion service, None when building it raised.
     */
    method Submit(prompt: string, systemPrompt: string, outcome: StreamOutcome, now: Clock,
                  first: WriteFault, second: WriteFault) returns (sent: Option<Request>)
      requires Valid()
      modifies this`messages, disk`files, this`lastSaveTime, this`saveFilePath, this`saveError
      ensures var asked := old(messages) + [Entry("user", prompt)];
        var request := RequestMessages(systemPrompt, asked);
        && messages == asked + [Entry("assistant", Reply(request, outcome))]
        && sent == (if request.Success? then Some(Request(AvailableModels[selectedModel], request.value)) else None)
        && disk.files == Saved(Saved(old(disk.files), sessionId, asked, now.iso, first), sessionId, messages, now.iso, second)
      ensures lastSaveTime == if first.NoFault? || second.NoFault? then Some(now.timeOfDay) else old(lastSaveTime)
      ensures saveFilePath == if first.NoFault? || second.NoFault? then Some(SessionFilePath()) else old(saveFilePath)
      ensures saveError ==
        if !second.NoFault? then Some("Save failed: " + second.error)
        else if !first.NoFault? then Some("Save failed: " + first.error)
        else old(saveError)
    {
      messages := messages + [Entry("user", prompt)];
      var _ := SaveSessionData(now, first);
      var request := RequestMessages(systemPrompt, messages);
      sent := if request.Success? then Some(Request(AvailableModels[selectedModel], request.value)) else None;
      messages := messages + [Entry("assistant", Reply(request, outcome))];
      var _ := SaveSessionData(now, second);
    }
  }

  /** After a turn whose second save succeeded, loading the session returns the whole new history. */
  lemma TurnIsPersisted(files: Files, sid: string, asked: seq<Json>, history: seq<Json>, timestamp: string, first: WriteFault)
    requires history != []
    ensures Load(Saved(Saved(files, sid, asked, timestamp, first), sid, history, timestamp, NoFault), sid).messages == history
  {
    LastSaveWins(files, sid, asked, timestamp, first, history, timestamp);
    SaveThenLoad(files, sid, history, timestamp);
  }

  /** A client of the handlers: a first turn that streams "Hi" and " there!", in memory and on disk. */
  method FirstTurnScenario()
  {
    var disk := new TempDir(map[]);
    var session := new SessionState("paird_chat_1", "/tmp", disk);
    var now := Clock("2024-06-01T10:00:00", "10:00:00", "20240601_100000", "2024-06-01 10:00:00");
    var sent := session.Submit("Hello", "system", Streamed(["Hi", " there!"]), now, NoFault, NoFault);
    assert Concat(["Hi", " there!"]) == "Hi there!" by {
      assert ["Hi", " there!"][1..] == [" there!"];
      assert [" there!"][1..] == [];
    }
    var hello := [Entry("user", "Hello"), Entry("assistant", "Hi there!")];
    assert session.messages == hello;
    assert sent.Some? && sent.value.model == "gpt-4o" && |sent.value.messages| == 2;
    TurnIsPersisted(map[], "paird_chat_1", [Entry("user", "Hello")], hello, now.iso, NoFault);
    assert Load(disk.files, "paird_chat_1").messages == hello;
  }

  /** A client of the handlers: a turn whose stream fails, then Clear Chat. */
  method FailedTurnThenClearScenario(session: SessionState, now: Clock)
    requires session.Valid() && session.messages == []
    modifies session, session.disk
  {
    var _ := session.Submit("Hello", "system", StreamFailed(["Partial"], "timeout"), now, NoFault, NoFault);
    assert session.messages[1] == Entry("assistant", ErrorNotice("timeout"));
    ghost var before := session.disk.files;
    session.ClearChat(false);
    assert session.messages == [];
    LoadAfterCleanup(before, session.sessionId);
    assert Load(session.disk.files, session.sessionId) == Loaded([], 0, None);
  }
}
