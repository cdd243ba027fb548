/**
 * The ephemeral session store: one pickled file per session id under the
 * temporary directory. The directory is a map from session id to what the
 * file holds; these functions give the directory after each operation and
 * what a read of it returns.
 */
module EphemeralStore {
  import opened Wrappers
  import opened PyJson

  /**
   * The dictionary a session file holds. `messages` is None when the file's
   * dictionary has no "messages" key (a file this app did not write).
   */
  datatype Record = Record(messages: Option<seq<Json>>, timestamp: string, sessionId: string)

  /** A session file: one that unpickles, or one whose unpickling raises `reason`. */
  datatype StoredFile = Intact(record: Record) | Unreadable(reason: string)

  /**
   * What goes wrong while saving: opening the file for writing raises (the file
   * is left as it was), or pickling raises after the file was truncated (what
   * is left on disk then raises `readBack` when unpickled).
   */
  datatype WriteFault = NoFault | OpenFails(error: string) | DumpFails(error: string, readBack: string)

  type Files = map<string, StoredFile>

  /** The outcome of a load: the messages, their count, and the diagnostic recorded on failure. */
  datatype Loaded = Loaded(messages: seq<Json>, count: nat, error: Option<string>)

  /** The directory after one save of `messages` for session `sid`. */
  function Saved(files: Files, sid: string, messages: seq<Json>, timestamp: string, fault: WriteFault): (r: Files)
    ensures messages == [] ==> r == files
    ensures r.Keys <= files.Keys + {sid}
    ensures forall other :: other != sid && other in files ==> other in r && r[other] == files[other]
  {
    if messages == [] then files
    else match fault
      case NoFault => files[sid := Intact(Record(Some(messages), timestamp, sid))]
      case OpenFails(_) => files
      case DumpFails(_, readBack) => files[sid := Unreadable(readBack)]
  }

  /** What reading session `sid` back from the directory returns; it never fails outward. */
  function Load(files: Files, sid: string): (r: Loaded)
    ensures r.count == |r.messages|
    ensures r.error.Some? <==> sid in files && files[sid].Unreadable?
    ensures r.error.Some? ==> r.messages == []
    ensures r.messages != [] ==> sid in files && files[sid].Intact? && files[sid].record.messages == Some(r.messages)
  {
    if sid !in files then Loaded([], 0, None)
    else match files[sid]
      case Unreadable(reason) => Loaded([], 0, Some("Load failed: " + reason))
      case Intact(record) =>
        if record.messages.Some? && record.messages.value != []
        then Loaded(record.messages.value, |record.messages.value|, None)
        else Loaded([], 0, None)
  }

  /** The directory after the session file of `sid` is removed, if it exists. */
  function Removed(files: Files, sid: string): (r: Files)
    ensures sid !in r
    ensures forall other :: other != sid ==> (other in r <==> other in files)
    ensures forall other :: other != sid && other in files ==> r[other] == files[other]
  {
    files - {sid}
  }

  /** Saving a non-empty history and loading it back with the same id returns that history. */
  lemma SaveThenLoad(files: Files, sid: string, messages: seq<Json>, timestamp: string)
    requires messages != []
    ensures Load(Saved(files, sid, messages, timestamp, NoFault), sid) == Loaded(messages, |messages|, None)
  {
  }

  /** A save with an empty history never disturbs an earlier record, whatever the fault. */
  lemma EmptySaveKeepsRecord(files: Files, sid: string, timestamp: string, fault: WriteFault)
    ensures Saved(files, sid, [], timestamp, fault) == files
    ensures Load(Saved(files, sid, [], timestamp, fault), sid) == Load(files, sid)
  {
  }

  /** Loading degrades to the empty history exactly in the cases the app treats as "no session". */
  lemma LoadEmptyCases(files: Files, sid: string)
    ensures Load(files, sid).messages == [] <==>
      || sid !in files
      || files[sid].Unreadable?
      || files[sid].record.messages.None?
      || files[sid].record.messages.value == []
  {
  }

  /** After cleanup no record is left, so the next load finds nothing and records no error. */
  lemma LoadAfterCleanup(files: Files, sid: string)
    ensures Load(Removed(files, sid), sid) == Loaded([], 0, None)
  {
  }

  /** A successful save overwrites whatever an earlier save left: the last writer wins. */
  lemma LastSaveWins(files: Files, sid: string, first: seq<Json>, t1: string, f1: WriteFault,
                     second: seq<Json>, t2: string)
    requires second != []
    ensures Saved(Saved(files, sid, first, t1, f1), sid, second, t2, NoFault)
         == Saved(files, sid, second, t2, NoFault)
  {
  }

  /** Saving or cleaning up one session never changes what another session loads. */
  lemma OtherSessionsUntouched(files: Files, sid: string, other: string,
                               messages: seq<Json>, timestamp: string, fault: WriteFault)
    requires other != sid
    ensures Load(Saved(files, sid, messages, timestamp, fault), other) == Load(files, other)
    ensures Load(Removed(files, sid), other) == Load(files, other)
  {
    var saved := Saved(files, sid, messages, timestamp, fault);
    assert other in saved <==> other in files;
    assert other in files ==> saved[other] == files[other];
  }
}
