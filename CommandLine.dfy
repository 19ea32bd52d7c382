/**
 * What both capture-lookups commands do before they touch a sheet: read
 * the options, resolve the destination directory and check it, and name
 * the mapping to look up. It also holds what a run of either command
 * ends with.
 */
module CommandLine {
  import opened OrderedMaps
  import opened Catalog
  import opened Confirmation
  import opened FileNames
  import opened SheetOutput

  /** `--destination`, `--sheet` (the mapping name) and `--force`; an absent value is None. */
  datatype Options = Options(destination: Option<string>, sheet: Option<string>, force: bool)

  /**
   * What the command reads from its surroundings besides the files: the
   * working directory, `realpath`, the transliteration `iconv` applies and
   * the operator.
   */
  datatype Host = Host(cwd: string, realpath: string -> Option<string>,
                       translit: string -> string, console: Console)

  /** How a run ends. */
  datatype Result =
    | DestinationMissing(given: string)    // "The destination directory doesn't exist"
    | NotADirectory(path: string)          // "The destination is not a valid directory"
    | NotWritable(path: string)            // "The destination is not writable"
    | Listed(rows: seq<ListingRow>)        // the table of known mappings
    | ConfigurationError(message: string)  // an exception from the fetch
    | ArgumentTypeError                    // a null mapping name passed where a string is declared
    | Wrote(document: string, outcomes: seq<Outcome>)

  /** `$input->getOption('destination') ?: getcwd()`: a falsy option ("" or "0") falls back too. */
  function DestinationArgument(opts: Options, cwd: string): string
  {
    match opts.destination
    case Some(d) => if d == "" || d == "0" then cwd else d
    case None => cwd
  }

  /** `empty($destination)` on what `realpath` returned: false, "" or "0". */
  predicate IsEmptyPath(resolved: Option<string>)
  {
    resolved.None? || resolved.value == "" || resolved.value == "0"
  }

  /** The three destination checks, in order; `Some(failure)` when one fails. */
  function CheckDestination(opts: Options, host: Host, dirs: set<string>, writable: set<string>): (r: Option<Result>)
    ensures r.Some? ==> r.value.DestinationMissing? || r.value.NotADirectory? || r.value.NotWritable?
    ensures r.None? <==>
      var resolved := host.realpath(DestinationArgument(opts, host.cwd));
      !IsEmptyPath(resolved) && resolved.value in dirs && resolved.value in writable
  {
    var given := DestinationArgument(opts, host.cwd);
    var resolved := host.realpath(given);
    if IsEmptyPath(resolved) then Some(DestinationMissing(given))
    else if resolved.value !in dirs then Some(NotADirectory(resolved.value))
    else if resolved.value !in writable then Some(NotWritable(resolved.value))
    else None
  }

  /** The destination the checks accepted. */
  function Destination(opts: Options, host: Host): string
    requires !IsEmptyPath(host.realpath(DestinationArgument(opts, host.cwd)))
  {
    host.realpath(DestinationArgument(opts, host.cwd)).value
  }

  /** `$mapping[$mappingName]` with a null name looks up the key "". */
  function MappingKey(opts: Options): string
  {
    match opts.sheet
    case Some(name) => name
    case None => ""
  }

  /** The per-sheet job for an accepted destination. */
  function JobFor(rule: NameRule, opts: Options, host: Host, destination: string, document: string): Job
  {
    Job(rule, destination, document, host.translit, opts.force, host.console)
  }
}
