/**
 * The history model's transformations: the export document, validation of an
 * uploaded document, the plain-text transcript, and the message list sent to
 * the completion service with each turn.
 */
module History {
  import opened Wrappers
  import opened PyJson

  // ---------------------------------------------------------------------------
  // Export document

  /** The snapshot offered for download; `model` is the selected model's display name. */
  datatype ExportDocument = ExportDocument(timestamp: string, messages: seq<Json>, model: string, totalMessages: nat)

  /** The export of a history, or None when there is nothing to export. */
  function ExportOf(messages: seq<Json>, model: string, timestamp: string): (r: Option<ExportDocument>)
    ensures r.None? <==> messages == []
    ensures r.Some? ==> r.value.messages == messages && r.value.totalMessages == |messages|
    ensures r.Some? ==> r.value.model == model && r.value.timestamp == timestamp
  {
    if messages == [] then None else Some(ExportDocument(timestamp, messages, model, |messages|))
  }

  /** The JSON object `json.dumps` serialises for the download. */
  function DocumentJson(doc: ExportDocument): (v: Json)
    ensures v.JObject? && v.fields.Keys == {"timestamp", "messages", "model", "total_messages"}
    ensures v.fields["messages"] == JArray(doc.messages)
    ensures v.fields["total_messages"] == JNum(doc.totalMessages)
    ensures v.fields["model"] == JStr(doc.model) && v.fields["timestamp"] == JStr(doc.timestamp)
  {
    JObject(map[
      "timestamp" := JStr(doc.timestamp),
      "messages" := JArray(doc.messages),
      "model" := JStr(doc.model),
      "total_messages" := JNum(doc.totalMessages)])
  }

  function DownloadFilename(timestamp: string): (name: string)
    ensures |name| == |timestamp| + 18
    ensures name[..13] == "chat_history_" && name[13..|name| - 5] == timestamp && name[|name| - 5..] == ".json"
  {
    "chat_history_" + timestamp + ".json"
  }

  // ---------------------------------------------------------------------------
  // Import of an uploaded document

  /**
   * An uploaded file: its text parsed as JSON, text that is not JSON, or a
   * failure while reading or decoding the upload (its exception text).
   */
  datatype Upload = Parsed(value: Json) | MalformedJson | ReadFailed(error: string)

  /** The three user-visible ways an import fails. */
  datatype ImportError = InvalidJson | InvalidFormat | LoadFailed(detail: string)

  /**
   * The history an upload yields. Python tests `"messages" in doc` and then
   * `doc["messages"]`, so a non-dict document either fails the test or raises.
   */
  function ImportMessages(upload: Upload): (r: Result<seq<Json>, ImportError>)
    ensures r.Success? <==>
      upload.Parsed? && upload.value.JObject? && "messages" in upload.value.fields
      && upload.value.fields["messages"].JArray?
    ensures r.Success? ==> r.value == upload.value.fields["messages"].items
    ensures r == Failure(InvalidJson) <==> upload.MalformedJson?
    ensures upload.Parsed? && upload.value.JObject? && r.Failure? ==> r.error == InvalidFormat
    ensures upload.ReadFailed? ==> r == Failure(LoadFailed(upload.error))
    ensures upload.Parsed? && (upload.value.JNull? || upload.value.JBool? || upload.value.JNum?)
      ==> r == Failure(LoadFailed(Contains(upload.value, "messages").error))
    ensures upload.Parsed? && Contains(upload.value, "messages") == Success(false) ==> r == Failure(InvalidFormat)
    ensures upload.Parsed? && Contains(upload.value, "messages") == Success(true)
      && Subscript(upload.value, "messages").Failure?
      ==> r == Failure(LoadFailed(Subscript(upload.value, "messages").error))
  {
    match upload
    case MalformedJson => Failure(InvalidJson)
    case ReadFailed(e) => Failure(LoadFailed(e))
    case Parsed(doc) =>
      match Contains(doc, "messages")
      case Failure(e) => Failure(LoadFailed(e))
      case Success(present) =>
        if !present then Failure(InvalidFormat)
        else match Subscript(doc, "messages")
          case Failure(e) => Failure(LoadFailed(e))
          case Success(v) => if v.JArray? then Success(v.items) else Failure(InvalidFormat)
  }

  /** `chat_data.get('timestamp', 'Unknown date')`, formatted with `str`. */
  function StampLabel(doc: Json, containerStr: Json -> string): (stamp: string)
    ensures doc.JObject? && "timestamp" !in doc.fields ==> stamp == "Unknown date"
    ensures doc.JObject? && "timestamp" in doc.fields && doc.fields["timestamp"].JStr?
      ==> stamp == doc.fields["timestamp"].s
  {
    if doc.JObject? && "timestamp" in doc.fields then Str(doc.fields["timestamp"], containerStr)
    else "Unknown date"
  }

  /** The message shown for each way an import fails. */
  function ErrorText(e: ImportError): (text: string)
    ensures |text| > 2 && text[..2] == "\U{274C} "
    ensures e.LoadFailed? ==> |text| > |e.detail| && text[|text| - |e.detail|..] == e.detail
  {
    match e
    case InvalidFormat => "\U{274C} Invalid chat history file format"
    case InvalidJson => "\U{274C} Invalid JSON file"
    case LoadFailed(detail) => "\U{274C} Error loading file: " + detail
  }

  /** The (success, message) pair shown to the user after an upload. */
  function ImportFeedback(upload: Upload, containerStr: Json -> string): (r: (bool, string))
    ensures r.0 <==> ImportMessages(upload).Success?
    ensures r.0 ==> r.1 == "\U{2705} Loaded " + NatDecimal(|ImportMessages(upload).value|)
                          + " messages from " + StampLabel(upload.value, containerStr)
    ensures !r.0 ==> r.1 == ErrorText(ImportMessages(upload).error)
  {
    match ImportMessages(upload)
    case Success(messages) =>
      (true, "\U{2705} Loaded " + NatDecimal(|messages|) + " messages from " + StampLabel(upload.value, containerStr))
    case Failure(e) => (false, ErrorText(e))
  }

  /** Importing an exported document gives back exactly the exported history. */
  lemma ImportOfExport(messages: seq<Json>, model: string, timestamp: string)
    requires messages != []
    ensures ImportMessages(Parsed(DocumentJson(ExportOf(messages, model, timestamp).value))) == Success(messages)
  {
  }

  /** Fields other than "messages" play no part in an import. */
  lemma ImportIgnoresOtherFields(fields: map<string, Json>, key: string, extra: Json)
    requires key != "messages"
    ensures ImportMessages(Parsed(JObject(fields[key := extra]))) == ImportMessages(Parsed(JObject(fields)))
  {
    var doc := fields[key := extra];
    assert ("messages" in doc) == ("messages" in fields);
    assert "messages" in fields ==> doc["messages"] == fields["messages"];
  }

  /**
   * The three kinds of failure show three different messages, all marked with
   * a cross; a success is marked with a check mark, and the flag agrees with
   * the import's outcome.
   */
  lemma ImportFeedbackDistinct(upload: Upload, containerStr: Json -> string)
    ensures ImportFeedback(upload, containerStr).0 == ImportMessages(upload).Success?
    ensures ImportMessages(upload).Failure? ==> ImportFeedback(upload, containerStr).1[0] == '\U{274C}'
    ensures ImportMessages(upload).Success? ==> ImportFeedback(upload, containerStr).1[0] == '\U{2705}'
  {
  }

  /** Different failures never show the same message. */
  lemma ErrorTextsDistinct(e1: ImportError, e2: ImportError)
    requires e1 != e2
    ensures ErrorText(e1) != ErrorText(e2)
  {
    var t1, t2 := ErrorText(e1), ErrorText(e2);
    if e1.LoadFailed? && e2.LoadFailed? {
      var prefix := "\U{274C} Error loading file: ";
      assert t1 == prefix + e1.detail && t2 == prefix + e2.detail;
      assert t1[|prefix|..] == e1.detail && t2[|prefix|..] == e2.detail;
    } else if e1.LoadFailed? || e2.LoadFailed? {
      assert t1[2] != t2[2];
    } else {
      assert t1[10] != t2[10];
    }
  }

  // ---------------------------------------------------------------------------
  // Plain-text transcript

  /** The rule under the header: fifty '=' characters. */
  const Rule: string := "=================================================="

  function Header(exportedOn: string, model: string, count: nat): (h: string)
    ensures |h| > 20 && h[..20] == "Chat History Export\n"
    ensures |h| >= |Rule| + 2 && h[|h| - |Rule| - 2..] == Rule + "\n\n"
  {
    "Chat History Export\n"
    + "Exported on: " + exportedOn + "\n"
    + "Model: " + model + "\n"
    + "Total Messages: " + NatDecimal(count) + "\n"
    + Rule + "\n\n"
  }

  /** "You" for a user entry, "AI Assistant" for any other role. */
  function RoleLabel(role: Json): (name: string)
    ensures name == "You" <==> role == JStr("user")
    ensures name != "You" ==> name == "AI Assistant"
  {
    if role == JStr("user") then "You" else "AI Assistant"
  }

  /** The block for the `i`-th entry, or the exception reading the entry raises. */
  function Block(m: Json, i: nat, containerStr: Json -> string): (r: Result<string, string>)
    ensures r.Success? <==> IsMessage(m)
  {
    match Subscript(m, "role")
    case Failure(e) => Failure(e)
    case Success(role) =>
      match Subscript(m, "content")
      case Failure(e) => Failure(e)
      case Success(content) =>
        Success("[" + NatDecimal(i) + "] " + RoleLabel(role) + ":\n" + Str(content, containerStr) + "\n\n")
  }

  /** Concatenation that stops at the first failure, as a loop that raises does. */
  function Join(a: Result<string, string>, b: Result<string, string>): Result<string, string> {
    if a.Failure? then a else if b.Failure? then b else Success(a.value + b.value)
  }

  /** The blocks of `messages`, numbered from 1, accumulated the way the export loop does. */
  function Blocks(messages: seq<Json>, containerStr: Json -> string): Result<string, string>
    decreases |messages|
  {
    if messages == [] then Success("")
    else Join(Blocks(messages[..|messages| - 1], containerStr),
              Block(messages[|messages| - 1], |messages|, containerStr))
  }

  /** Reference reading: the first message's block, numbered `i`, then the rest from `i + 1`. */
  function BlocksFrom(messages: seq<Json>, i: nat, containerStr: Json -> string): Result<string, string>
    decreases |messages|
  {
    if messages == [] then Success("")
    else Join(Block(messages[0], i, containerStr), BlocksFrom(messages[1..], i + 1, containerStr))
  }

  /** The text export: None on an empty history, else the header and one block per entry. */
  function Transcript(messages: seq<Json>, model: string, exportedOn: string, containerStr: Json -> string)
    : (r: Result<Option<string>, string>)
    ensures r == Success(None) <==> messages == []
    ensures r.Success? <==> forall k :: 0 <= k < |messages| ==> IsMessage(messages[k])
    ensures r.Success? && messages != [] ==>
      BlocksFrom(messages, 1, containerStr).Success?
      && r.value == Some(Header(exportedOn, model, |messages|) + BlocksFrom(messages, 1, containerStr).value)
  {
    BlocksSucceed(messages, containerStr);
    BlocksInOrder(messages, containerStr);
    if messages == [] then Success(None)
    else match Blocks(messages, containerStr)
      case Failure(e) => Failure(e)
      case Success(body) => Success(Some(Header(exportedOn, model, |messages|) + body))
  }

  lemma JoinAssociative(a: Result<string, string>, b: Result<string, string>, c: Result<string, string>)
    ensures Join(Join(a, b), c) == Join(a, Join(b, c))
  {
    if a.Success? && b.Success? && c.Success? {
      assert (a.value + b.value) + c.value == a.value + (b.value + c.value);
    }
  }

  /** Numbering the blocks from the front: appending an entry appends its block, numbered last. */
  lemma {:induction false} BlocksFromSnoc(messages: seq<Json>, m: Json, i: nat, containerStr: Json -> string)
    ensures BlocksFrom(messages + [m], i, containerStr)
         == Join(BlocksFrom(messages, i, containerStr), Block(m, i + |messages|, containerStr))
    decreases |messages|
  {
    var last := Block(m, i + |messages|, containerStr);
    if messages == [] {
      assert [m][1..] == [];
      assert BlocksFrom([m], i, containerStr) == Join(last, Success(""));
      if last.Success? {
        assert last.value + "" == last.value;
        assert "" + last.value == last.value;
      }
    } else {
      var first := Block(messages[0], i, containerStr);
      var restRef := BlocksFrom(messages[1..], i + 1, containerStr);
      assert (messages + [m])[0] == messages[0];
      assert (messages + [m])[1..] == messages[1..] + [m];
      BlocksFromSnoc(messages[1..], m, i + 1, containerStr);
      assert BlocksFrom(messages + [m], i, containerStr) == Join(first, Join(restRef, last));
      JoinAssociative(first, restRef, last);
    }
  }

  /** The loop's accumulation and the front-to-back reading agree: blocks are numbered from 1, in order. */
  lemma {:induction false} BlocksInOrder(messages: seq<Json>, containerStr: Json -> string)
    ensures Blocks(messages, containerStr) == BlocksFrom(messages, 1, containerStr)
    decreases |messages|
  {
    if messages != [] {
      var init, last := messages[..|messages| - 1], messages[|messages| - 1];
      var lastBlock := Block(last, |messages|, containerStr);
      assert Blocks(messages, containerStr) == Join(Blocks(init, containerStr), lastBlock);
      BlocksInOrder(init, containerStr);
      assert init + [last] == messages;
      BlocksFromSnoc(init, last, 1, containerStr);
      assert BlocksFrom(messages, 1, containerStr) == Join(BlocksFrom(init, 1, containerStr), lastBlock);
    }
  }

  /** The blocks are produced exactly when every entry has a role and a content. */
  lemma {:induction false} BlocksSucceed(messages: seq<Json>, containerStr: Json -> string)
    ensures Blocks(messages, containerStr).Success? <==> forall k :: 0 <= k < |messages| ==> IsMessage(messages[k])
    decreases |messages|
  {
    if messages != [] {
      var init, last := messages[..|messages| - 1], messages[|messages| - 1];
      assert Blocks(messages, containerStr) == Join(Blocks(init, containerStr), Block(last, |messages|, containerStr));
      BlocksSucceed(init, containerStr);
      if forall k :: 0 <= k < |messages| ==> IsMessage(messages[k]) {
        forall k | 0 <= k < |init| ensures IsMessage(init[k]) {
          assert init[k] == messages[k];
        }
      }
      if (forall k :: 0 <= k < |init| ==> IsMessage(init[k])) && IsMessage(last) {
        forall k | 0 <= k < |messages| ensures IsMessage(messages[k]) {
          if k < |init| { assert messages[k] == init[k]; }
        }
      }
    }
  }

  /** One more iteration of the export loop: the prefix grows by the next entry's block. */
  lemma BlocksStep(messages: seq<Json>, i: nat, containerStr: Json -> string)
    requires i < |messages|
    ensures Blocks(messages[..i + 1], containerStr)
         == Join(Blocks(messages[..i], containerStr), Block(messages[i], i + 1, containerStr))
  {
    assert messages[..i + 1][..i] == messages[..i];
  }

  /** Once a prefix's blocks fail, the whole transcript fails with the same error. */
  lemma {:induction false} BlocksPrefixFailure(messages: seq<Json>, n: nat, containerStr: Json -> string)
    requires n <= |messages|
    requires Blocks(messages[..n], containerStr).Failure?
    ensures Blocks(messages, containerStr) == Blocks(messages[..n], containerStr)
    decreases |messages| - n
  {
    if n < |messages| {
      var init := messages[..|messages| - 1];
      assert init[..n] == messages[..n];
      BlocksPrefixFailure(init, n, containerStr);
    } else {
      assert messages[..n] == messages;
    }
  }

  /** Appending an entry to a well-formed history adds exactly its block, numbered last. */
  lemma TranscriptGrowsByOneBlock(messages: seq<Json>, m: Json, containerStr: Json -> string)
    requires Blocks(messages, containerStr).Success? && IsMessage(m)
    ensures Blocks(messages + [m], containerStr)
         == Success(Blocks(messages, containerStr).value + Block(m, |messages| + 1, containerStr).value)
  {
    assert (messages + [m])[..|messages|] == messages;
  }

  // ---------------------------------------------------------------------------
  // Completion request

  /** One message of the completion request. */
  datatype ChatMessage = ChatMessage(role: Json, content: Json)

  /** The request: the deployment id and the message list. */
  datatype Request = Request(model: string, messages: seq<ChatMessage>)

  /** `{"role": m["role"], "content": m["content"]}` for every entry, in order; the first failure raises. */
  function Projected(history: seq<Json>): (r: Result<seq<ChatMessage>, string>)
    ensures r.Success? <==> forall k :: 0 <= k < |history| ==> IsMessage(history[k])
    ensures r.Success? ==> |r.value| == |history|
    ensures r.Success? ==> forall k :: 0 <= k < |history| ==>
      r.value[k] == ChatMessage(history[k].fields["role"], history[k].fields["content"])
    decreases |history|
  {
    if history == [] then Success([])
    else match Subscript(history[0], "role")
      case Failure(e) => Failure(e)
      case Success(role) =>
        match Subscript(history[0], "content")
        case Failure(e) => Failure(e)
        case Success(content) =>
          match Projected(history[1..])
          case Failure(e) => Failure(e)
          case Success(rest) => Success([ChatMessage(role, content)] + rest)
  }

  /** The system message followed by the projected history. */
  function RequestMessages(systemPrompt: string, history: seq<Json>): (r: Result<seq<ChatMessage>, string>)
    ensures r.Success? <==> forall k :: 0 <= k < |history| ==> IsMessage(history[k])
    ensures r.Success? ==> |r.value| == |history| + 1
    ensures r.Success? ==> r.value[0] == ChatMessage(JStr("system"), JStr(systemPrompt))
    ensures r.Success? ==> forall k :: 0 <= k < |history| ==>
      r.value[k + 1] == ChatMessage(history[k].fields["role"], history[k].fields["content"])
  {
    match Projected(history)
    case Failure(e) => Failure(e)
    case Success(rest) => Success([ChatMessage(JStr("system"), JStr(systemPrompt))] + rest)
  }

  /**
   * What the streaming call delivered: every fragment, or the fragments that
   * arrived (and were displayed) before the exception that ended it.
   */
  datatype StreamOutcome = Streamed(fragments: seq<string>) | StreamFailed(partial: seq<string>, error: string)

  function SumOfLengths(fragments: seq<string>): nat
    decreases |fragments|
  {
    if fragments == [] then 0 else |fragments[0]| + SumOfLengths(fragments[1..])
  }

  /** The text `st.write_stream` returns: the fragments joined in arrival order. */
  function Concat(fragments: seq<string>): (text: string)
    ensures |text| == SumOfLengths(fragments)
    ensures fragments != [] ==> text[..|fragments[0]|] == fragments[0]
    decreases |fragments|
  {
    if fragments == [] then "" else fragments[0] + Concat(fragments[1..])
  }

  /** Each fragment that arrives extends the reply at its end: arrival order is kept. */
  lemma {:induction false} ConcatSnoc(fragments: seq<string>, last: string)
    ensures Concat(fragments + [last]) == Concat(fragments) + last
    decreases |fragments|
  {
    if fragments == [] {
      assert [last][1..] == [];
      assert last + "" == last;
      assert "" + last == last;
    } else {
      assert (fragments + [last])[0] == fragments[0];
      assert (fragments + [last])[1..] == fragments[1..] + [last];
      ConcatSnoc(fragments[1..], last);
      assert fragments[0] + (Concat(fragments[1..]) + last) == (fragments[0] + Concat(fragments[1..])) + last;
    }
  }

  function ErrorNotice(error: string): (notice: string)
    ensures |notice| > |error| && notice[|notice| - |error|..] == error
    ensures notice[0] == '\U{274C}'
  {
    "\U{274C} **Error generating response:** " + error
  }

  /**
   * The assistant entry's content after a turn: the streamed text, or the
   * error notice when building the request or streaming raised.
   */
  function Reply(request: Result<seq<ChatMessage>, string>, outcome: StreamOutcome): (r: string)
    ensures request.Success? && outcome.Streamed? ==> r == Concat(outcome.fragments)
    ensures request.Failure? ==> r == ErrorNotice(request.error)
    ensures request.Success? && outcome.StreamFailed? ==> r == ErrorNotice(outcome.error)
  {
    if request.Failure? then ErrorNotice(request.error)
    else match outcome
      case Streamed(fragments) => Concat(fragments)
      case StreamFailed(_, e) => ErrorNotice(e)
  }

  /**
   * An aborted stream's partial text never becomes the reply: the reply is the
   * error notice, whatever had arrived before the failure.
   */
  lemma FailedStreamGivesNotice(request: Result<seq<ChatMessage>, string>, partial: seq<string>, error: string)
    requires request.Success?
    ensures Reply(request, StreamFailed(partial, error)) == Reply(request, StreamFailed([], error))
    ensures Reply(request, StreamFailed(partial, error)) == ErrorNotice(error)
    ensures Reply(request, StreamFailed(["Partial"], error)) != "Partial"
  {
    assert ErrorNotice(error)[0] == '\U{274C}';
  }

  /**
   * Once the history holds an entry without a role or a content (an import
   * accepts any list), building the request raises, so the reply the request
   * builder yields is the error notice whatever the service would stream.
   */
  lemma {:induction false} MalformedEntryFailsRequest(systemPrompt: string, history: seq<Json>, k: nat,
                                                      o1: StreamOutcome, o2: StreamOutcome)
    requires k < |history| && !IsMessage(history[k])
    ensures RequestMessages(systemPrompt, history).Failure?
    ensures Reply(RequestMessages(systemPrompt, history), o1) == Reply(RequestMessages(systemPrompt, history), o2)
  {
  }
}
