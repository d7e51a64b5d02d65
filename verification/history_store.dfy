/** The history store: one JSON document holding the list of entries, with a
    loader that recovers from every unreadable state and a saver that writes a
    temporary file and then moves it over the canonical one. The file system is
    abstracted to what the loader can observe of the canonical file and of the
    temporary file beside it. */
module HistoryStore {
  import opened Records

  /** What a file holds, as the loader classifies it. */
  datatype Content =
    | Blank                          // zero bytes, or only whitespace
    | Document(entries: seq<Entry>)  // a JSON array of entries
    | Undecodable                    // a JSON or Unicode decode error
    | Unreadable                     // any other failure while reading it

  /** The canonical history file and the `.tmp` file beside it; None is a
      missing file. */
  datatype Store = Store(file: Option<Content>, temp: Option<Content>)

  /** What `json.dump([], ...)` writes. */
  const EmptyDocument: Content := Document([])

  datatype Loaded = Loaded(entries: seq<Entry>, store: Store)

  /** `load_history`. A missing file is created holding `[]`; a blank file reads
      as empty without being rewritten; a decode error resets the file to `[]`;
      any other read failure reads as empty and leaves the file alone. The
      temporary file is never looked at. */
  function Load(s: Store): (r: Loaded)
    ensures r.store.temp == s.temp
    ensures r.entries != [] ==> s.file == Some(Document(r.entries))
    ensures s.file.Some? && s.file.value.Document? ==> r == Loaded(s.file.value.entries, s)
    ensures r.store != s <==> s.file == None || s.file == Some(Undecodable)
    ensures r.store != s ==> r.store.file == Some(EmptyDocument)
  {
    match s.file
    case None => Loaded([], s.(file := Some(EmptyDocument)))
    case Some(content) =>
      match content
      case Blank => Loaded([], s)
      case Document(entries) => Loaded(entries, s)
      case Undecodable => Loaded([], s.(file := Some(EmptyDocument)))
      case Unreadable => Loaded([], s)
  }

  /** Where a save can fail: while writing the temporary file (including a
      serialisation error part-way through), or while moving it into place. */
  datatype SaveFault = NoFault | WriteFails | ReplaceFails

  /** Writing the temporary file; a failed write leaves a truncated file that
      would not decode. The canonical file is not touched. */
  function WriteTemp(s: Store, entries: seq<Entry>, completes: bool): Store
  {
    s.(temp := Some(if completes then Document(entries) else Undecodable))
  }

  /** `os.replace` / `os.rename` of the temporary file onto the canonical one;
      both end in the same state, whether or not the canonical file existed. */
  function MoveTempIntoPlace(s: Store): Store
    requires s.temp.Some?
  {
    Store(s.temp, None)
  }

  /** The exception handler: the temporary file is removed if present. */
  function RemoveTemp(s: Store): Store
  {
    s.(temp := None)
  }

  /** `save_history`. Errors are swallowed, so the only effect of a failure is
      on the files. */
  function Save(s: Store, entries: seq<Entry>, fault: SaveFault): (r: Store)
    ensures r.temp == None
    ensures fault == NoFault ==> r.file == Some(Document(entries))
    ensures fault != NoFault ==> r.file == s.file
  {
    var written := WriteTemp(s, entries, fault != WriteFails);
    if fault == NoFault then MoveTempIntoPlace(written) else RemoveTemp(written)
  }

  /** The load, append, save sequence the upload handler runs. */
  function AppendEntry(s: Store, e: Entry, fault: SaveFault): Store
  {
    var loaded := Load(s);
    Save(loaded.store, loaded.entries + [e], fault)
  }

  /** A successful save is read back exactly. */
  lemma SaveLoadRoundTrip(s: Store, entries: seq<Entry>)
    ensures Load(Save(s, entries, NoFault)) == Loaded(entries, Save(s, entries, NoFault))
  {
  }

  /** A failed save leaves the canonical file, and so what the next load reads,
      as it was; the temporary file is gone. */
  lemma FailedSaveKeepsHistory(s: Store, entries: seq<Entry>, fault: SaveFault)
    requires fault != NoFault
    ensures Save(s, entries, fault).file == s.file
    ensures Save(s, entries, fault).temp == None
    ensures Load(Save(s, entries, fault)).entries == Load(s).entries
  {
  }

  /** A crash after the temporary file was written but before it was moved
      leaves the canonical file, and what a load reads, unchanged. */
  lemma CrashBeforeReplaceKeepsHistory(s: Store, entries: seq<Entry>, completes: bool)
    ensures WriteTemp(s, entries, completes).file == s.file
    ensures Load(WriteTemp(s, entries, completes)).entries == Load(s).entries
  {
  }

  /** Loading is idempotent: after one load has repaired the store, a second
      load reads the same entries and changes nothing. */
  lemma LoadIdempotent(s: Store)
    ensures Load(Load(s).store) == Loaded(Load(s).entries, Load(s).store)
  {
  }

  /** Appending with a successful save puts the new entry last and keeps every
      previously loaded entry, in order; with a failed save the history reads
      as before. */
  lemma AppendEntryEffect(s: Store, e: Entry, fault: SaveFault)
    ensures fault == NoFault ==>
      Load(AppendEntry(s, e, fault)).entries == Load(s).entries + [e]
    ensures fault != NoFault ==>
      Load(AppendEntry(s, e, fault)).entries == Load(s).entries
    ensures var after := Load(AppendEntry(s, e, fault)).entries;
      forall i :: 0 <= i < |Load(s).entries| ==> after[i] == Load(s).entries[i]
  {
    LoadIdempotent(s);
  }
}
