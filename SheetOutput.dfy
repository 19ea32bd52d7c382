/**
 * The per-sheet output loop that both capture-lookups commands run once the
 * sheets are loaded: build the candidate name, pass the unsafe-name gate
 * (accepting switches to the safe alternative), pass the overwrite gate when
 * the path exists, then truncate the file and write one CSV record per row.
 *
 * The filesystem is a class whose `files` map each path to the rows it
 * holds; directories are a fixed set of paths. `Step` and `Run` state what
 * one sheet and a whole sequence of sheets do to the files, and the method
 * `WriteSheets` is proved to do exactly that.
 */
module SheetOutput {
  import opened OrderedMaps
  import opened FileNames
  import opened Confirmation

  /** A CSV record: its cells, an empty cell being the empty string. */
  type Row = seq<string>

  type Files = map<string, seq<Row>>

  const DirectorySeparator: string := "/"

  /** What happened to one sheet. */
  datatype Outcome =
    | SkippedUnsafe(file: string)   // "Skipping (unsafe file name)."
    | SkippedExists(path: string)   // "Skipping (file exists)."
    | Written(path: string)         // "Done."
    | OpenFailed(path: string)      // fopen() refused the path: it is a directory

  /** Everything the loop reads besides the files and the sheets. */
  datatype Job = Job(rule: NameRule, destination: string, document: string,
                     translit: string -> string, force: bool, console: Console)

  /** The files, and how many questions have been asked so far. */
  datatype State = State(files: Files, asked: nat)

  /** A directory-or-file namespace, updated in place by the writes. */
  class FileSystem {
    var files: Files
    const dirs: set<string>
    const writable: set<string>

    constructor (files: Files, dirs: set<string>, writable: set<string>)
      ensures this.files == files && this.dirs == dirs && this.writable == writable
    {
      this.files := files;
      this.dirs := dirs;
      this.writable := writable;
    }

    /** `file_exists($path)`: true of files and of directories. */
    predicate Exists(path: string)
      reads this
    {
      path in files || path in dirs
    }

    /**
     * `fopen($path, 'w')`: creates or truncates a file. A directory is the
     * only path on which the model's open fails.
     */
    method Open(path: string) returns (ok: bool)
      modifies this
      ensures ok == (path !in dirs)
      ensures files == if ok then old(files)[path := []] else old(files)
    {
      ok := path !in dirs;
      if ok {
        files := files[path := []];
      }
    }

    /** `fputcsv($fp, $row)` on an open file: appends one record. */
    method PutRow(path: string, row: Row)
      requires path in files
      modifies this
      ensures files == old(files)[path := old(files)[path] + [row]]
    {
      files := files[path := files[path] + [row]];
    }
  }

  function Path(job: Job, file: string): string
  {
    job.destination + DirectorySeparator + file
  }

  /** The file name used once the unsafe-name gate has been accepted. */
  function ResolvedFile(job: Job, sheet: string): string
  {
    var candidate := Candidate(job.document, sheet);
    if IsRisky(candidate) then SafeName(job.rule, job.translit, job.document, sheet) else candidate
  }

  predicate PathExists(dirs: set<string>, files: Files, path: string)
  {
    path in files || path in dirs
  }

  /** Opening `path` for writing and writing `rows` to it. */
  function Write(dirs: set<string>, st: State, path: string, rows: seq<Row>): (State, Outcome)
  {
    if path in dirs then (st, OpenFailed(path))
    else (State(st.files[path := rows], st.asked), Written(path))
  }

  /** One iteration of the output loop, for the sheet `sheet` holding `rows`. */
  function Step(job: Job, dirs: set<string>, st: State, sheet: string, rows: seq<Row>): (State, Outcome)
  {
    var candidate := Candidate(job.document, sheet);
    var risky := IsRisky(candidate);
    if risky && !Confirm(job.console, job.force, st.asked) then
      (State(st.files, st.asked + 1), SkippedUnsafe(candidate))
    else
      var asked := if risky then st.asked + 1 else st.asked;
      var path := Path(job, ResolvedFile(job, sheet));
      if PathExists(dirs, st.files, path) then
        if Confirm(job.console, job.force, asked) then Write(dirs, State(st.files, asked + 1), path, rows)
        else (State(st.files, asked + 1), SkippedExists(path))
      else
        Write(dirs, State(st.files, asked), path, rows)
  }

  /** The whole loop: the sheets in order, each one `Step` after the ones before it. */
  function Run(job: Job, dirs: set<string>, st: State, sheets: OMap<seq<Row>>): (r: (State, seq<Outcome>))
    ensures |r.1| == |sheets|
    decreases |sheets|
  {
    if sheets == [] then (st, [])
    else
      var before := Run(job, dirs, st, sheets[..|sheets| - 1]);
      var last := sheets[|sheets| - 1];
      var after := Step(job, dirs, before.0, last.0, last.1);
      (after.0, before.1 + [after.1])
  }

  /**
   * `foreach ($sheets as $sheetName => $sheetData)` with its two gates and
   * its row-writing loop. The files it leaves and the outcomes it reports
   * are those of `Run` from the files it started with.
   */
  method WriteSheets(fs: FileSystem, job: Job, sheets: OMap<seq<Row>>) returns (outcomes: seq<Outcome>, asked: nat)
    modifies fs
    ensures (State(fs.files, asked), outcomes) == Run(job, fs.dirs, State(old(fs.files), 0), sheets)
  {
    ghost var files0 := fs.files;
    outcomes, asked := [], 0;
    for i := 0 to |sheets|
      invariant (State(fs.files, asked), outcomes) == Run(job, fs.dirs, State(files0, 0), sheets[..i])
    {
      assert sheets[..i + 1][..i] == sheets[..i];
      var outcome;
      outcome, asked := WriteSheet(fs, job, asked, sheets[i].0, sheets[i].1);
      outcomes := outcomes + [outcome];
    }
    assert sheets[..|sheets|] == sheets;
  }

  /** One pass of the loop body: the gates of one sheet, then its file. */
  method WriteSheet(fs: FileSystem, job: Job, asked0: nat, sheetName: string, values: seq<Row>)
      returns (outcome: Outcome, asked: nat)
    modifies fs
    ensures (State(fs.files, asked), outcome) == Step(job, fs.dirs, State(old(fs.files), asked0), sheetName, values)
  {
    asked := asked0;
    var file := Candidate(job.document, sheetName);
    if IsRisky(file) {
      var yes := Confirm(job.console, job.force, asked);
      asked := asked + 1;
      if !yes {
        return SkippedUnsafe(file), asked;
      }
      file := SafeName(job.rule, job.translit, job.document, sheetName);
    }
    var path := job.destination + DirectorySeparator + file;
    assert path == Path(job, ResolvedFile(job, sheetName));
    if fs.Exists(path) {
      var yes := Confirm(job.console, job.force, asked);
      asked := asked + 1;
      if !yes {
        return SkippedExists(path), asked;
      }
    }
    outcome := WriteFile(fs, asked, path, values);
  }

  /** `fopen`, then one `fputcsv` per row, then `fclose`. */
  method WriteFile(fs: FileSystem, asked: nat, path: string, values: seq<Row>) returns (outcome: Outcome)
    modifies fs
    ensures (State(fs.files, asked), outcome) == Write(fs.dirs, State(old(fs.files), asked), path, values)
  {
    var ok := fs.Open(path);
    if !ok {
      return OpenFailed(path);
    }
    ghost var truncated := fs.files;
    for j := 0 to |values|
      invariant fs.files == truncated[path := values[..j]]
    {
      fs.PutRow(path, values[j]);
      assert values[..j + 1] == values[..j] + [values[j]];
    }
    assert values[..|values|] == values;
    assert fs.files == old(fs.files)[path := values];
    outcome := Written(path);
  }

  // ---------------------------------------------------------------------------
  // What one step does

  /** The outcome of a sheet names the file or path the step worked on. */
  predicate Describes(job: Job, sheet: string, o: Outcome)
  {
    match o
    case SkippedUnsafe(file) => file == Candidate(job.document, sheet) && IsRisky(file)
    case SkippedExists(path) => path == Path(job, ResolvedFile(job, sheet))
    case Written(path) => path == Path(job, ResolvedFile(job, sheet))
    case OpenFailed(path) => path == Path(job, ResolvedFile(job, sheet))
  }

  /**
   * One step names the sheet's own file, changes the files only by writing
   * that sheet's rows, truncating whatever was there, and asks one question
   * per gate it enters: the unsafe-name question exactly when the candidate
   * is risky, the overwrite question exactly when it gets past that gate and
   * the resolved path already exists.
   */
  lemma StepEffect(job: Job, dirs: set<string>, st: State, sheet: string, rows: seq<Row>)
    ensures var (st', o) := Step(job, dirs, st, sheet, rows);
      && Describes(job, sheet, o)
      && st'.files == (if o.Written? then st.files[o.path := rows] else st.files)
      && st'.asked == st.asked
           + (if IsRisky(Candidate(job.document, sheet)) then 1 else 0)
           + (if !o.SkippedUnsafe? && PathExists(dirs, st.files, Path(job, ResolvedFile(job, sheet))) then 1 else 0)
  {
  }

  /**
   * What the answers decide: declining the unsafe-name question skips the
   * sheet; otherwise declining the overwrite question, asked only of a path
   * that exists, skips it and leaves its file alone; otherwise the sheet is
   * written under its resolved name, which is the safe name when the
   * candidate was risky, unless that path is a directory.
   */
  lemma StepGates(job: Job, dirs: set<string>, st: State, sheet: string, rows: seq<Row>)
    ensures var (st', o) := Step(job, dirs, st, sheet, rows);
      var risky := IsRisky(Candidate(job.document, sheet));
      var path := Path(job, ResolvedFile(job, sheet));
      var asked := st.asked + (if risky then 1 else 0);
      && (o.SkippedUnsafe? <==> risky && !Confirm(job.console, job.force, st.asked))
      && (o.SkippedExists? <==>
            !o.SkippedUnsafe? && PathExists(dirs, st.files, path) && !Confirm(job.console, job.force, asked))
      && (o.OpenFailed? <==> !o.SkippedUnsafe? && !o.SkippedExists? && path in dirs)
      && (o.Written? <==> !o.SkippedUnsafe? && !o.SkippedExists? && path !in dirs)
      && (!o.SkippedUnsafe? ==> o.path == path)
      && (o.Written? ==> st'.files == st.files[path := rows])
      && (!o.Written? ==> st'.files == st.files)
  {
  }

  /** The file a sheet ends up in is always safe, ends in ".csv" and has no directory part. */
  lemma ResolvedFileIsSafe(job: Job, sheet: string)
    ensures !IsRisky(ResolvedFile(job, sheet))
    ensures EndsWith(ResolvedFile(job, sheet), Csv)
    ensures forall i :: 0 <= i < |ResolvedFile(job, sheet)| ==> ResolvedFile(job, sheet)[i] != '/'
  {
    var candidate := Candidate(job.document, sheet);
    if IsRisky(candidate) {
      SafeNameIsSafe(job.rule, job.translit, job.document, sheet);
    } else {
      assert candidate[|candidate| - |Csv|..] == Csv;
    }
    var f := ResolvedFile(job, sheet);
    forall i | 0 <= i < |f| ensures f[i] != '/' {
      assert IsSafeChar(f[i]);
    }
  }

  // ---------------------------------------------------------------------------
  // What the whole loop does

  /** The k-th outcome is the step of the k-th sheet taken after the sheets before it. */
  lemma {:induction false} RunOutcomeAt(job: Job, dirs: set<string>, st: State, sheets: OMap<seq<Row>>, k: nat)
    requires k < |sheets|
    ensures Run(job, dirs, st, sheets).1[k]
         == Step(job, dirs, Run(job, dirs, st, sheets[..k]).0, sheets[k].0, sheets[k].1).1
    decreases |sheets|
  {
    var init := sheets[..|sheets| - 1];
    if k < |sheets| - 1 {
      assert init[..k] == sheets[..k] && init[k] == sheets[k];
      RunOutcomeAt(job, dirs, st, init, k);
    } else {
      assert init == sheets[..k];
    }
  }

  /**
   * Every outcome belongs to its own sheet, in sheet order: a skipped unsafe
   * name is that sheet's risky candidate, and every path is that sheet's
   * resolved path, `<destination>/<document>-<sheet>.csv` when that name is
   * safe and the safe alternative otherwise.
   */
  lemma RunDescribesEachSheet(job: Job, dirs: set<string>, st: State, sheets: OMap<seq<Row>>)
    ensures forall k :: 0 <= k < |sheets| ==> Describes(job, sheets[k].0, Run(job, dirs, st, sheets).1[k])
    ensures forall k :: 0 <= k < |sheets| && !IsRisky(Candidate(job.document, sheets[k].0))
              && !Run(job, dirs, st, sheets).1[k].SkippedUnsafe?
              ==> Run(job, dirs, st, sheets).1[k].path
                  == job.destination + "/" + job.document + "-" + sheets[k].0 + ".csv"
  {
    forall k | 0 <= k < |sheets|
      ensures Describes(job, sheets[k].0, Run(job, dirs, st, sheets).1[k])
    {
      RunOutcomeAt(job, dirs, st, sheets, k);
      StepEffect(job, dirs, Run(job, dirs, st, sheets[..k]).0, sheets[k].0, sheets[k].1);
    }
  }

  /** Every file the loop writes lies directly in the destination and has a safe ".csv" name. */
  lemma RunWritesOnlySafeNames(job: Job, dirs: set<string>, st: State, sheets: OMap<seq<Row>>)
    ensures forall k :: 0 <= k < |sheets| && Run(job, dirs, st, sheets).1[k].Written? ==>
      var f := ResolvedFile(job, sheets[k].0);
      && Run(job, dirs, st, sheets).1[k].path == job.destination + "/" + f
      && !IsRisky(f) && EndsWith(f, Csv)
      && (forall i :: 0 <= i < |f| ==> f[i] != '/')
  {
    RunDescribesEachSheet(job, dirs, st, sheets);
    forall k | 0 <= k < |sheets| {
      ResolvedFileIsSafe(job, sheets[k].0);
    }
  }

  /** The rows of the last sheet written to `path`, if any sheet was. */
  function LastWritten(sheets: OMap<seq<Row>>, outcomes: seq<Outcome>, path: string): Option<seq<Row>>
    requires |outcomes| == |sheets|
  {
    if sheets == [] then None
    else if outcomes[|outcomes| - 1] == Written(path) then Some(sheets[|sheets| - 1].1)
    else LastWritten(sheets[..|sheets| - 1], outcomes[..|outcomes| - 1], path)
  }

  /** A path the last write records was written by some sheet. */
  lemma {:induction false} WrittenAt(sheets: OMap<seq<Row>>, outcomes: seq<Outcome>, p: string)
    requires |outcomes| == |sheets| && LastWritten(sheets, outcomes, p).Some?
    ensures exists k :: 0 <= k < |sheets| && outcomes[k] == Written(p)
    decreases |sheets|
  {
    if outcomes[|outcomes| - 1] != Written(p) {
      WrittenAt(sheets[..|sheets| - 1], outcomes[..|outcomes| - 1], p);
      var k :| 0 <= k < |sheets| - 1 && outcomes[..|outcomes| - 1][k] == Written(p);
      assert outcomes[k] == Written(p);
    }
  }

  /**
   * The files after the loop: a path some sheet was written to holds the
   * rows of the last such sheet, in row order; every other path, including
   * each one whose gate was declined, is exactly as before.
   */
  lemma {:induction false} RunFiles(job: Job, dirs: set<string>, st: State, sheets: OMap<seq<Row>>)
    ensures var (st', outs) := Run(job, dirs, st, sheets);
      forall p :: (p in st'.files <==> p in st.files || LastWritten(sheets, outs, p).Some?)
               && (p in st'.files ==> st'.files[p] == (match LastWritten(sheets, outs, p)
                                                       case Some(rows) => rows
                                                       case None => st.files[p]))
    decreases |sheets|
  {
    if sheets != [] {
      var init := sheets[..|sheets| - 1];
      var last := sheets[|sheets| - 1];
      var (mid, outsInit) := Run(job, dirs, st, init);
      RunFiles(job, dirs, st, init);
      StepEffect(job, dirs, mid, last.0, last.1);
      var outs := Run(job, dirs, st, sheets).1;
      assert outs == outsInit + [Step(job, dirs, mid, last.0, last.1).1];
      assert outs[..|outs| - 1] == outsInit;
    }
  }

  // ---------------------------------------------------------------------------
  // Non-interactive runs: every gate takes its default, the force flag

  /** A forced non-interactive run never skips: it writes every sheet (renaming risky names, overwriting existing files) unless the path is a directory. */
  lemma RunForced(job: Job, dirs: set<string>, st: State, sheets: OMap<seq<Row>>)
    requires job.force && !job.console.interactive
    ensures forall k :: 0 <= k < |sheets| ==>
      var path := Path(job, ResolvedFile(job, sheets[k].0));
      Run(job, dirs, st, sheets).1[k] == if path in dirs then OpenFailed(path) else Written(path)
  {
    forall k | 0 <= k < |sheets| {
      RunOutcomeAt(job, dirs, st, sheets, k);
    }
  }

  /**
   * An unforced non-interactive run skips exactly the risky names, never
   * overwrites: every file that existed before keeps its rows, every file
   * it writes is new, and no two sheets write the same file.
   */
  lemma {:induction false} RunUnforced(job: Job, dirs: set<string>, st: State, sheets: OMap<seq<Row>>)
    requires !job.force && !job.console.interactive
    ensures var (st', outs) := Run(job, dirs, st, sheets);
      && (forall k :: 0 <= k < |sheets| ==>
            (outs[k].SkippedUnsafe? <==> IsRisky(Candidate(job.document, sheets[k].0))))
      && (forall k :: 0 <= k < |sheets| ==> !outs[k].OpenFailed?)
      && (forall k :: 0 <= k < |sheets| && outs[k].Written? ==> outs[k].path !in st.files)
      && (forall k :: 0 <= k < |sheets| && outs[k].Written? ==> outs[k].path in st'.files)
      && (forall j, k :: 0 <= j < k < |sheets| && outs[j].Written? && outs[k].Written? ==>
            outs[j].path != outs[k].path)
      && (forall p :: p in st.files ==> p in st'.files && st'.files[p] == st.files[p])
    decreases |sheets|
  {
    if sheets != [] {
      var init := sheets[..|sheets| - 1];
      var last := sheets[|sheets| - 1];
      var (mid, outsInit) := Run(job, dirs, st, init);
      RunUnforced(job, dirs, st, init);
      StepEffect(job, dirs, mid, last.0, last.1);
      assert forall k :: 0 <= k < |init| ==> init[k] == sheets[k];
      assert Run(job, dirs, st, sheets).1 == outsInit + [Step(job, dirs, mid, last.0, last.1).1];
    }
  }

  /**
   * After an unforced non-interactive run, running it again over the same
   * sheets changes nothing: each sheet is skipped, the risky ones for their
   * name and the others because their file now exists.
   */
  lemma RunUnforcedAgain(job: Job, dirs: set<string>, st: State, sheets: OMap<seq<Row>>, asked: nat)
    requires !job.force && !job.console.interactive
    ensures var first := Run(job, dirs, st, sheets).0;
      var (second, outs) := Run(job, dirs, State(first.files, asked), sheets);
      && second.files == first.files
      && (forall k :: 0 <= k < |sheets| ==> outs[k].SkippedUnsafe? || outs[k].SkippedExists?)
  {
    var (first, outs1) := Run(job, dirs, st, sheets);
    RunDescribesEachSheet(job, dirs, st, sheets);
    RunFiles(job, dirs, st, sheets);
    RunUnforced(job, dirs, st, sheets);
    forall k | 0 <= k < |sheets| && !IsRisky(Candidate(job.document, sheets[k].0))
      ensures PathExists(dirs, first.files, Path(job, ResolvedFile(job, sheets[k].0)))
    {
      var path := Path(job, ResolvedFile(job, sheets[k].0));
      var mid := Run(job, dirs, st, sheets[..k]).0;
      RunOutcomeAt(job, dirs, st, sheets, k);
      StepEffect(job, dirs, mid, sheets[k].0, sheets[k].1);
      RunFiles(job, dirs, st, sheets[..k]);
      RunUnforced(job, dirs, st, sheets[..k]);
      match outs1[k]
      case Written(_) =>
        WrittenStays(sheets, outs1, k);
      case OpenFailed(_) =>
      case SkippedExists(_) =>
        assert PathExists(dirs, mid.files, path);
        if path in mid.files {
          NewFileStays(job, dirs, st, sheets, k, path);
        }
      case SkippedUnsafe(_) =>
    }
    RunSkipsWhenAllExist(job, dirs, State(first.files, asked), sheets);
  }

  /** A path written by the k-th sheet is still recorded as written at the end. */
  lemma {:induction false} WrittenStays(sheets: OMap<seq<Row>>, outs: seq<Outcome>, k: nat)
    requires |outs| == |sheets| && k < |sheets| && outs[k].Written?
    ensures LastWritten(sheets, outs, outs[k].path).Some?
    decreases |sheets|
  {
    if k < |sheets| - 1 && outs[|outs| - 1] != Written(outs[k].path) {
      WrittenStays(sheets[..|sheets| - 1], outs[..|outs| - 1], k);
    }
  }

  /** A file present after the first k sheets is still present after all of them. */
  lemma NewFileStays(job: Job, dirs: set<string>, st: State, sheets: OMap<seq<Row>>, k: nat, path: string)
    requires k <= |sheets|
    requires path in Run(job, dirs, st, sheets[..k]).0.files
    ensures path in Run(job, dirs, st, sheets).0.files
  {
    FilesOnlyGrow(job, dirs, st, sheets, k);
  }

  lemma {:induction false} FilesOnlyGrow(job: Job, dirs: set<string>, st: State, sheets: OMap<seq<Row>>, k: nat)
    requires k <= |sheets|
    ensures Run(job, dirs, st, sheets[..k]).0.files.Keys <= Run(job, dirs, st, sheets).0.files.Keys
    decreases |sheets|
  {
    if k < |sheets| {
      var init := sheets[..|sheets| - 1];
      var last := sheets[|sheets| - 1];
      assert init[..k] == sheets[..k];
      FilesOnlyGrow(job, dirs, st, init, k);
      StepEffect(job, dirs, Run(job, dirs, st, init).0, last.0, last.1);
    } else {
      assert sheets[..k] == sheets;
    }
  }

  /** When every safe sheet's path already exists, an unforced non-interactive run skips everything. */
  lemma {:induction false} RunSkipsWhenAllExist(job: Job, dirs: set<string>, st: State, sheets: OMap<seq<Row>>)
    requires !job.force && !job.console.interactive
    requires forall k :: 0 <= k < |sheets| && !IsRisky(Candidate(job.document, sheets[k].0))
               ==> PathExists(dirs, st.files, Path(job, ResolvedFile(job, sheets[k].0)))
    ensures var (st', outs) := Run(job, dirs, st, sheets);
      && st'.files == st.files
      && (forall k :: 0 <= k < |sheets| ==> outs[k].SkippedUnsafe? || outs[k].SkippedExists?)
    decreases |sheets|
  {
    if sheets != [] {
      var init := sheets[..|sheets| - 1];
      var last := sheets[|sheets| - 1];
      assert forall k :: 0 <= k < |init| ==> init[k] == sheets[k];
      RunSkipsWhenAllExist(job, dirs, st, init);
      var mid := Run(job, dirs, st, init).0;
      assert mid.files == st.files;
      StepEffect(job, dirs, mid, last.0, last.1);
    }
  }

  /**
   * A forced non-interactive run leaves the same files when run a second
   * time over the same sheets: it overwrites every file with the same rows.
   */
  lemma RunForcedAgain(job: Job, dirs: set<string>, st: State, sheets: OMap<seq<Row>>, asked: nat)
    requires job.force && !job.console.interactive
    ensures var first := Run(job, dirs, st, sheets).0;
      Run(job, dirs, State(first.files, asked), sheets).0.files == first.files
  {
    var (first, outs1) := Run(job, dirs, st, sheets);
    var st2 := State(first.files, asked);
    var (second, outs2) := Run(job, dirs, st2, sheets);
    RunForced(job, dirs, st, sheets);
    RunForced(job, dirs, st2, sheets);
    assert outs1 == outs2;
    RunFiles(job, dirs, st, sheets);
    RunFiles(job, dirs, st2, sheets);
    assert forall p :: p in second.files <==> p in first.files;
  }
}
