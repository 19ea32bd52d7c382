/**
 * The earlier `capture-lookups` command (src/AppBundle): the same
 * destination checks and output loop as the current one, but it calls the
 * sheet service of this model (`GoogleApi.Load`) directly, lists every
 * mapping when the requested one is not set, and builds the safe name
 * without trimming or collapsing spaces.
 *
 * `getMapping()` stands for the mapping the service parsed; that method is
 * not part of the service's file, so the model takes the mapping as input.
 */
module LegacyCaptureLookups {
  import opened OrderedMaps
  import opened Catalog
  import opened FileNames
  import opened SheetOutput
  import opened CommandLine
  import GoogleApi

  /** What a run does: its result, the files it leaves and the requests it sends. */
  function Effect(opts: Options, host: Host, dirs: set<string>, writable: set<string>,
                  mapping: Mapping, remote: GoogleApi.Remote, files: Files)
    : (Result, Files, seq<GoogleApi.Request>)
  {
    match CheckDestination(opts, host, dirs, writable)
    case Some(failure) => (failure, files, [])
    case None =>
      if !EntryIsSet(mapping, MappingKey(opts)) then (Listed(AllRows(mapping)), files, [])
      else if opts.sheet.None? then (ArgumentTypeError, files, [])
      else
        var (loaded, requests) := GoogleApi.Load(mapping, opts.sheet.value, remote);
        match loaded
        case InvalidConfiguration(message) => (ConfigurationError(message), files, requests)
        case Loaded(document, sheets) =>
          var job := JobFor(Plain, opts, host, Destination(opts, host), document);
          var (st, outcomes) := Run(job, dirs, State(files, 0), sheets);
          (Wrote(document, outcomes), st.files, requests)
  }

  /** `CaptureLookupsCommand::execute`. */
  method Execute(fs: FileSystem, opts: Options, host: Host, mapping: Mapping, remote: GoogleApi.Remote)
      returns (result: Result, requests: seq<GoogleApi.Request>)
    modifies fs
    ensures (result, fs.files, requests) == Effect(opts, host, fs.dirs, fs.writable, mapping, remote, old(fs.files))
  {
    requests := [];
    var given := DestinationArgument(opts, host.cwd);
    var destination := host.realpath(given);
    if IsEmptyPath(destination) {
      return DestinationMissing(given), requests;
    }
    if destination.value !in fs.dirs {
      return NotADirectory(destination.value), requests;
    }
    if destination.value !in fs.writable {
      return NotWritable(destination.value), requests;
    }
    if !EntryIsSet(mapping, MappingKey(opts)) {
      var rows := ListKnownSheets(mapping);
      return Listed(rows), requests;
    }
    if opts.sheet.None? {
      return ArgumentTypeError, requests;
    }
    var loaded;
    loaded, requests := GoogleApi.LoadSheets(mapping, opts.sheet.value, remote);
    if loaded.InvalidConfiguration? {
      return ConfigurationError(loaded.message), requests;
    }
    var outcomes, _ := WriteSheets(fs, JobFor(Plain, opts, host, destination.value, loaded.title), loaded.sheets);
    result := Wrote(loaded.title, outcomes);
  }

  /** `CaptureLookupsCommand::listKnownSheets`: one row per mapping, with or without a `url`. */
  method ListKnownSheets(mapping: Mapping) returns (rows: seq<ListingRow>)
    ensures rows == AllRows(mapping)
  {
    rows := [];
    for i := 0 to |mapping|
      invariant rows == AllRows(mapping[..i])
    {
      assert mapping[..i + 1][..i] == mapping[..i];
      rows := rows + [RowOf(mapping[i])];
    }
    assert mapping[..|mapping|] == mapping;
  }

  /**
   * A destination that does not resolve, is not a directory or is not
   * writable ends the run with that failure before anything is sent or
   * written, whatever the mapping and the remote document.
   */
  lemma DestinationFailsFirst(opts: Options, host: Host, dirs: set<string>, writable: set<string>,
                              mapping: Mapping, other: Mapping, remote: GoogleApi.Remote,
                              otherRemote: GoogleApi.Remote, files: Files)
    requires CheckDestination(opts, host, dirs, writable).Some?
    ensures var (result, files', requests) := Effect(opts, host, dirs, writable, mapping, remote, files);
      && (result.DestinationMissing? || result.NotADirectory? || result.NotWritable?)
      && files' == files && requests == []
      && Effect(opts, host, dirs, writable, other, otherRemote, files) == (result, files', requests)
  {
  }

  /**
   * A mapping name that is not set lists every mapping, in mapping order,
   * each with its `url` cell (null when it has none); nothing is sent and
   * no file changes.
   */
  lemma UnknownMappingListsAll(opts: Options, host: Host, dirs: set<string>, writable: set<string>,
                               mapping: Mapping, remote: GoogleApi.Remote, files: Files)
    requires CheckDestination(opts, host, dirs, writable).None?
    requires !EntryIsSet(mapping, MappingKey(opts))
    ensures var (result, files', requests) := Effect(opts, host, dirs, writable, mapping, remote, files);
      && result.Listed? && files' == files && requests == []
      && |result.rows| == |mapping|
      && forall i :: 0 <= i < |mapping| ==>
           result.rows[i] == ListingRow(mapping[i].0, Property(mapping[i].1, "url"))
  {
    forall i | 0 <= i < |mapping| {
      AllRowsAt(mapping, i);
    }
  }

  /**
   * Without `--sheet` the name is null, which looks up the key "": when
   * that key is set, the null reaches the service's `string` parameter and
   * the run ends in a type error, with nothing sent or written.
   */
  lemma NullSheetIsTypeError(opts: Options, host: Host, dirs: set<string>, writable: set<string>,
                             mapping: Mapping, remote: GoogleApi.Remote, files: Files)
    requires CheckDestination(opts, host, dirs, writable).None?
    requires opts.sheet.None? && "" in Keys(mapping) && Get(mapping, "").value != Leaf(PhpValues.Null)
    ensures Effect(opts, host, dirs, writable, mapping, remote, files) == (ArgumentTypeError, files, [])
  {
  }

  /**
   * A mapping that is set but has no `url` ends the run with the service's
   * configuration error naming it, with nothing sent and no file written.
   */
  lemma MappingWithoutUrlFails(opts: Options, host: Host, dirs: set<string>, writable: set<string>,
                               mapping: Mapping, remote: GoogleApi.Remote, files: Files)
    requires CheckDestination(opts, host, dirs, writable).None?
    requires opts.sheet.Some? && EntryIsSet(mapping, opts.sheet.value)
    requires !HasUrl(Get(mapping, opts.sheet.value).value)
    ensures Effect(opts, host, dirs, writable, mapping, remote, files)
         == (ConfigurationError(GoogleApi.InvalidMappingMessage(opts.sheet.value)), files, [])
  {
    GoogleApi.LoadFailsWithoutUrl(mapping, opts.sheet.value, remote);
  }

  /**
   * A mapping with a `url` is fetched, and the loop runs over what the
   * fetch returned: one outcome per loaded sheet, in order; a file that
   * changes is one some sheet was written to, directly inside the
   * destination, under a safe ".csv" name.
   */
  lemma KnownMappingWrites(opts: Options, host: Host, dirs: set<string>, writable: set<string>,
                           mapping: Mapping, remote: GoogleApi.Remote, files: Files)
    requires CheckDestination(opts, host, dirs, writable).None?
    requires opts.sheet.Some? && EntryIsSet(mapping, opts.sheet.value)
    requires HasUrl(Get(mapping, opts.sheet.value).value)
    ensures var (result, files', requests) := Effect(opts, host, dirs, writable, mapping, remote, files);
      var (loaded, sent) := GoogleApi.Fetch(Get(mapping, opts.sheet.value).value, remote);
      var job := JobFor(Plain, opts, host, Destination(opts, host), loaded.title);
      && loaded.Loaded? && requests == sent
      && result == Wrote(loaded.title, result.outcomes) && |result.outcomes| == |loaded.sheets|
      && (forall p :: p in files' && !(p in files && files'[p] == files[p]) ==>
            exists k :: 0 <= k < |loaded.sheets| && result.outcomes[k] == Written(p))
      && (forall k :: 0 <= k < |loaded.sheets| && result.outcomes[k].Written? ==>
            var f := ResolvedFile(job, loaded.sheets[k].0);
            && result.outcomes[k].path == Destination(opts, host) + "/" + f
            && !IsRisky(f) && EndsWith(f, Csv))
  {
    var entry := Get(mapping, opts.sheet.value).value;
    GoogleApi.LoadFailsWithoutUrl(mapping, opts.sheet.value, remote);
    GoogleApi.FetchBatched(entry, remote);
    var (loaded, sent) := GoogleApi.Fetch(entry, remote);
    var sheets := loaded.sheets;
    var job := JobFor(Plain, opts, host, Destination(opts, host), loaded.title);
    var (st, outcomes) := Run(job, dirs, State(files, 0), sheets);
    RunFiles(job, dirs, State(files, 0), sheets);
    RunWritesOnlySafeNames(job, dirs, State(files, 0), sheets);
    forall p | p in st.files && !(p in files && st.files[p] == files[p])
      ensures exists k :: 0 <= k < |sheets| && outcomes[k] == Written(p)
    {
      WrittenAt(sheets, outcomes, p);
    }
  }

  /**
   * Without `--force` and without an operator, a second run against the
   * same remote document changes no file and sends the same requests.
   */
  lemma UnforcedRerunChangesNothing(opts: Options, host: Host, dirs: set<string>, writable: set<string>,
                                    mapping: Mapping, remote: GoogleApi.Remote, files: Files)
    requires !opts.force && !host.console.interactive
    ensures var (_, first, sent) := Effect(opts, host, dirs, writable, mapping, remote, files);
      var (result, second, resent) := Effect(opts, host, dirs, writable, mapping, remote, first);
      && second == first && resent == sent
      && (result.Wrote? ==> forall k :: 0 <= k < |result.outcomes| ==>
            result.outcomes[k].SkippedUnsafe? || result.outcomes[k].SkippedExists?)
  {
    if CheckDestination(opts, host, dirs, writable).None? && EntryIsSet(mapping, MappingKey(opts))
       && opts.sheet.Some? {
      var (loaded, _) := GoogleApi.Load(mapping, opts.sheet.value, remote);
      if loaded.Loaded? {
        var job := JobFor(Plain, opts, host, Destination(opts, host), loaded.title);
        RunUnforcedAgain(job, dirs, State(files, 0), loaded.sheets, 0);
      }
    }
  }

  /**
   * With `--force` and without an operator, every sheet is written unless
   * its path is a directory, and a second run against the same remote
   * document leaves exactly the files the first left.
   */
  lemma ForcedRerunSameFiles(opts: Options, host: Host, dirs: set<string>, writable: set<string>,
                             mapping: Mapping, remote: GoogleApi.Remote, files: Files)
    requires opts.force && !host.console.interactive
    ensures var (result, first, _) := Effect(opts, host, dirs, writable, mapping, remote, files);
      && Effect(opts, host, dirs, writable, mapping, remote, first).1 == first
      && (result.Wrote? ==> forall k :: 0 <= k < |result.outcomes| ==>
            result.outcomes[k].Written? || result.outcomes[k].OpenFailed?)
  {
    if CheckDestination(opts, host, dirs, writable).None? && EntryIsSet(mapping, MappingKey(opts))
       && opts.sheet.Some? {
      var (loaded, _) := GoogleApi.Load(mapping, opts.sheet.value, remote);
      if loaded.Loaded? {
        var job := JobFor(Plain, opts, host, Destination(opts, host), loaded.title);
        RunForced(job, dirs, State(files, 0), loaded.sheets);
        RunForcedAgain(job, dirs, State(files, 0), loaded.sheets, 0);
      }
    }
  }
}
