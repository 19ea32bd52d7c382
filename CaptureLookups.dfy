/**
 * The `capture-lookups` command: check the destination, list the known
 * mappings when the requested one is not set, otherwise load the
 * document's sheets and write each one as a CSV file, offering a trimmed
 * and space-collapsed safe name for a risky one.
 *
 * The sheet service this command calls (src/Service/GoogleApiService.php)
 * is not part of this model: what it returns for a mapping name, the
 * document title and its sheets or the configuration error it throws, is
 * the input `load`.
 */
module CaptureLookups {
  import opened OrderedMaps
  import opened Catalog
  import opened FileNames
  import opened SheetOutput
  import opened CommandLine
  import GoogleApi

  /** The sheet service's `loadSheets`, for the `--sheet` value: the document title and its sheets, or an error. */
  type Loader = Option<string> -> GoogleApi.LoadResult

  /** What a run does: its result and the files it leaves. */
  function Effect(opts: Options, host: Host, dirs: set<string>, writable: set<string>,
                  mapping: Mapping, load: Loader, files: Files): (Result, Files)
  {
    match CheckDestination(opts, host, dirs, writable)
    case Some(failure) => (failure, files)
    case None =>
      if !EntryIsSet(mapping, MappingKey(opts)) then (Listed(UrlRows(mapping)), files)
      else
        match load(opts.sheet)
        case InvalidConfiguration(message) => (ConfigurationError(message), files)
        case Loaded(document, sheets) =>
          var job := JobFor(Trimmed, opts, host, Destination(opts, host), document);
          var (st, outcomes) := Run(job, dirs, State(files, 0), sheets);
          (Wrote(document, outcomes), st.files)
  }

  /** `CaptureLookupsCommand::execute`. */
  method Execute(fs: FileSystem, opts: Options, host: Host, mapping: Mapping, load: Loader) returns (result: Result)
    modifies fs
    ensures (result, fs.files) == Effect(opts, host, fs.dirs, fs.writable, mapping, load, old(fs.files))
  {
    var given := DestinationArgument(opts, host.cwd);
    var destination := host.realpath(given);
    if IsEmptyPath(destination) {
      return DestinationMissing(given);
    }
    if destination.value !in fs.dirs {
      return NotADirectory(destination.value);
    }
    if destination.value !in fs.writable {
      return NotWritable(destination.value);
    }
    if !EntryIsSet(mapping, MappingKey(opts)) {
      var rows := ListKnownSheets(mapping);
      return Listed(rows);
    }
    var loaded := load(opts.sheet);
    if loaded.InvalidConfiguration? {
      return ConfigurationError(loaded.message);
    }
    var outcomes, _ := WriteSheets(fs, JobFor(Trimmed, opts, host, destination.value, loaded.title), loaded.sheets);
    result := Wrote(loaded.title, outcomes);
  }

  /** `CaptureLookupsCommand::listKnownSheets`: one row per mapping that has a `url`. */
  method ListKnownSheets(mapping: Mapping) returns (rows: seq<ListingRow>)
    ensures rows == UrlRows(mapping)
  {
    rows := [];
    for i := 0 to |mapping|
      invariant rows == UrlRows(mapping[..i])
    {
      assert mapping[..i + 1][..i] == mapping[..i];
      if HasUrl(mapping[i].1) {
        rows := rows + [RowOf(mapping[i])];
      }
    }
    assert mapping[..|mapping|] == mapping;
  }

  /**
   * A destination that does not resolve, is not a directory or is not
   * writable ends the run before the mapping is consulted or any sheet is
   * loaded: the result is that failure, whatever the mapping and the
   * sheets would have been, and no file changes.
   */
  lemma DestinationFailsFirst(opts: Options, host: Host, dirs: set<string>, writable: set<string>,
                              mapping: Mapping, other: Mapping, load: Loader, otherLoad: Loader, files: Files)
    requires CheckDestination(opts, host, dirs, writable).Some?
    ensures var (result, files') := Effect(opts, host, dirs, writable, mapping, load, files);
      && (result.DestinationMissing? || result.NotADirectory? || result.NotWritable?)
      && files' == files
      && Effect(opts, host, dirs, writable, other, otherLoad, files) == (result, files')
  {
  }

  /**
   * A mapping name that is not set lists exactly the mappings that have a
   * `url`, in mapping order, loads nothing and changes no file.
   */
  lemma UnknownMappingLists(opts: Options, host: Host, dirs: set<string>, writable: set<string>,
                            mapping: Mapping, load: Loader, otherLoad: Loader, files: Files)
    requires CheckDestination(opts, host, dirs, writable).None?
    requires !EntryIsSet(mapping, MappingKey(opts))
    ensures var (result, files') := Effect(opts, host, dirs, writable, mapping, load, files);
      && result.Listed? && files' == files
      && (forall row :: row in result.rows <==>
            exists i :: 0 <= i < |mapping| && HasUrl(mapping[i].1) && RowOf(mapping[i]) == row)
      && Effect(opts, host, dirs, writable, mapping, otherLoad, files) == (result, files')
  {
    forall row {
      UrlRowsMembers(mapping, row);
    }
  }

  /**
   * A set mapping name is passed to the service; an error it reports ends
   * the run with that message and no file written. Otherwise the run
   * writes: one outcome per loaded sheet, in order; a
   * file that changes is one some sheet was written to, directly inside
   * the destination, under a safe ".csv" name; a risky sheet's name is the
   * trimmed alternative, with no leading space and no run of spaces.
   */
  lemma KnownMappingWrites(opts: Options, host: Host, dirs: set<string>, writable: set<string>,
                           mapping: Mapping, load: Loader, files: Files)
    requires CheckDestination(opts, host, dirs, writable).None?
    requires EntryIsSet(mapping, MappingKey(opts))
    ensures var (result, files') := Effect(opts, host, dirs, writable, mapping, load, files);
      load(opts.sheet).InvalidConfiguration? ==>
        result == ConfigurationError(load(opts.sheet).message) && files' == files
    ensures var (result, files') := Effect(opts, host, dirs, writable, mapping, load, files);
      load(opts.sheet).Loaded? ==>
      var (document, sheets) := (load(opts.sheet).title, load(opts.sheet).sheets);
      var job := JobFor(Trimmed, opts, host, Destination(opts, host), document);
      && result == Wrote(document, result.outcomes) && |result.outcomes| == |sheets|
      && (forall p :: p in files' && !(p in files && files'[p] == files[p]) ==>
            exists k :: 0 <= k < |sheets| && result.outcomes[k] == Written(p))
      && (forall k :: 0 <= k < |sheets| && result.outcomes[k].Written? ==>
            var f := ResolvedFile(job, sheets[k].0);
            && result.outcomes[k].path == Destination(opts, host) + "/" + f
            && !IsRisky(f) && EndsWith(f, Csv)
            && (IsRisky(Candidate(document, sheets[k].0)) ==> f[0] != ' ' && !HasDoubleSpace(f)))
  {
    if load(opts.sheet).Loaded? {
      var (document, sheets) := (load(opts.sheet).title, load(opts.sheet).sheets);
      var job := JobFor(Trimmed, opts, host, Destination(opts, host), document);
      var (st, outcomes) := Run(job, dirs, State(files, 0), sheets);
      RunFiles(job, dirs, State(files, 0), sheets);
      RunWritesOnlySafeNames(job, dirs, State(files, 0), sheets);
      forall p | p in st.files && !(p in files && st.files[p] == files[p])
        ensures exists k :: 0 <= k < |sheets| && outcomes[k] == Written(p)
      {
        WrittenAt(sheets, outcomes, p);
      }
      forall k | 0 <= k < |sheets| && IsRisky(Candidate(document, sheets[k].0))
        ensures var f := ResolvedFile(job, sheets[k].0); f[0] != ' ' && !HasDoubleSpace(f)
      {
        SafeNameIsSafe(Trimmed, host.translit, document, sheets[k].0);
      }
    }
  }

  /**
   * Without `--force` and without an operator, a second run over the same
   * sheets changes no file: every sheet is skipped, for its risky name or
   * because the first run wrote its file.
   */
  lemma UnforcedRerunChangesNothing(opts: Options, host: Host, dirs: set<string>, writable: set<string>,
                                    mapping: Mapping, load: Loader, files: Files)
    requires !opts.force && !host.console.interactive
    ensures var (_, first) := Effect(opts, host, dirs, writable, mapping, load, files);
      var (result, second) := Effect(opts, host, dirs, writable, mapping, load, first);
      && second == first
      && (result.Wrote? ==> forall k :: 0 <= k < |result.outcomes| ==>
            result.outcomes[k].SkippedUnsafe? || result.outcomes[k].SkippedExists?)
  {
    if CheckDestination(opts, host, dirs, writable).None? && EntryIsSet(mapping, MappingKey(opts))
       && load(opts.sheet).Loaded? {
      var (document, sheets) := (load(opts.sheet).title, load(opts.sheet).sheets);
      var job := JobFor(Trimmed, opts, host, Destination(opts, host), document);
      RunUnforcedAgain(job, dirs, State(files, 0), sheets, 0);
    }
  }

  /**
   * With `--force` and without an operator, every sheet is written (under
   * its safe name when the candidate is risky) unless its path is a
   * directory, and a second run leaves exactly the files the first left.
   */
  lemma ForcedRerunSameFiles(opts: Options, host: Host, dirs: set<string>, writable: set<string>,
                             mapping: Mapping, load: Loader, files: Files)
    requires opts.force && !host.console.interactive
    ensures var (result, first) := Effect(opts, host, dirs, writable, mapping, load, files);
      && Effect(opts, host, dirs, writable, mapping, load, first).1 == first
      && (result.Wrote? ==> forall k :: 0 <= k < |result.outcomes| ==>
            result.outcomes[k].Written? || result.outcomes[k].OpenFailed?)
  {
    if CheckDestination(opts, host, dirs, writable).None? && EntryIsSet(mapping, MappingKey(opts))
       && load(opts.sheet).Loaded? {
      var (document, sheets) := (load(opts.sheet).title, load(opts.sheet).sheets);
      var job := JobFor(Trimmed, opts, host, Destination(opts, host), document);
      RunForced(job, dirs, State(files, 0), sheets);
      RunForcedAgain(job, dirs, State(files, 0), sheets, 0);
    }
  }
}
