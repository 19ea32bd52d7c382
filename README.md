# capture-lookups in Dafny

`capture-lookups` is a console command. It downloads the sheets of a Google
Sheets document and writes each sheet to a CSV file in a destination
directory. A YAML mapping file names the documents. Each mapping name has a
`url` and, optionally, `startingFromRow` and `batchGet`. The command:

1. Checks the destination. It must resolve, be a directory and be writable.
2. When the `--sheet` mapping name is not set in the mapping, lists the
   known mappings and stops.
3. Otherwise, asks the sheet service for the document's title and sheets.
   Sheets whose title ends in `_` are dropped. The values of the other
   sheets come from one batched request or from one request per sheet.
4. Writes each sheet to `<destination>/<document>-<sheet>.csv`. Two yes/no
   gates come first:
   - A name with risky characters offers a safe alternative.
   - An existing file asks before it is overwritten.

   Both gates default to the `--force` flag.

The repository has two versions of the command, and both are modelled:

- **current** (`src/Command`): lists only the mappings that have a `url`,
  and trims and space-collapses the safe name.
- **earlier** (`src/AppBundle/Command`): lists every mapping, and uses the
  safe name as stripped.

The earlier command calls the sheet service of `src/AppBundle/Service`,
whose `loadSheets` and `getSpreadsheetId` are modelled.

Modules:

- `OrderedMaps`: PHP arrays with string keys, as insertion-ordered
  `(key, value)` sequences. Assignment replaces in place or appends.
- `PhpValues`: scalars, `isset`, truthiness, the `(int)` cast (saturating to
  64 bits) and `(string)` conversion.
- `Catalog`: the parsed mapping file and the two listings.
- `FileNames`: the candidate name, the risky-character test and the two
  safe-name rules.
- `Confirmation`: the yes/no questions. A non-interactive run takes the
  default. An interactive reply counts as yes when it starts with `y` or
  `Y`, and an empty reply takes the default.
- `SheetOutput`: the per-sheet output loop over a `FileSystem` class.
  - `WriteSheets`, `WriteSheet` and `WriteFile` are the imperative loop.
  - The functions `Step` and `Run` specify it.
- `GoogleApi`: `GoogleApiService::loadSheets` and `getSpreadsheetId`.
  - The imperative `LoadSheets` and its helpers are proved equal to the
    function `Load`.
  - The client is a `Remote` value that answers requests. The model also
    records the requests sent.
- `CommandLine`: the options, the destination checks and the result of a
  run.
- `CaptureLookups` and `LegacyCaptureLookups`: `execute` and
  `listKnownSheets` of the two commands.
  - Each `Execute` method changes the file system exactly as the function
    `Effect` says.
  - Each `ListKnownSheets` returns exactly the listing function.

Two things the code does that are easy to miss:

- In the batched fetch, a value range whose label reads back as a name that
  was not requested raises no error. Its values are assigned under that
  name, which becomes a new key of the sheet map.
- In the earlier command, a missing `--sheet` is null, and `$mapping[null]`
  looks up the key `""`. When that key is set, the null is passed to
  `loadSheets(string $mappingId)`, and the run ends with a type error
  (`ArgumentTypeError`).

`getMapping()` is called by both commands. It is not defined in the service
file that is part of this model, so both models take the parsed mapping as
an input. The service used by the current command
(`src/Service/GoogleApiService.php`) is not part of this model. What it
returns for a mapping name is the input `load` of `CaptureLookups.Effect`.

## Model

| member | source | states |
|---|---|---|
| OrderedMaps.Get | src/AppBundle/Service/GoogleApiService.php:55 | `$m[$k]` is found exactly when `$k` is a key of the array |
| OrderedMaps.Assign | src/AppBundle/Service/GoogleApiService.php:101-103 | `$m[$k] = $v`: afterwards `$k` holds `$v` and every other key holds what it held; the keys are unchanged when `$k` was present, otherwise `$k` is appended |
| OrderedMaps.AssignWellFormed | src/AppBundle/Service/GoogleApiService.php:74-79 | assignment keeps every key unique |
| OrderedMaps.AssignAt | src/AppBundle/Service/GoogleApiService.php:101-103 | assigning to an existing key replaces that entry where it stands, keeping the order |
| PhpValues.DecimalRoundTrip | src/AppBundle/Service/GoogleApiService.php:86-87 | the `(int)` cast reads every 64-bit integer back from its decimal form |
| PhpValues.NegativeValue | src/AppBundle/Service/GoogleApiService.php:86 | `(int)` of a minus sign followed by digits is the negated, saturated value of the digits |
| PhpValues.UnsignedValue | src/AppBundle/Service/GoogleApiService.php:86 | `(int)` of a string starting with a digit is the saturated value of its leading digits |
| PhpValues.Clamp | src/AppBundle/Service/GoogleApiService.php:86 | the cast saturates into the 64-bit range: a value above it gives the largest 64-bit integer, one below it the smallest, and an in-range value is left alone |
| PhpValues.StringToInt | src/AppBundle/Service/GoogleApiService.php:86 | `(int)` of a string: leading whitespace skipped, an optional sign and the leading digits read, the value saturated; `UnsignedValue`, `NegativeValue` and `DecimalRoundTrip` state what it gives |
| PhpValues.IntCast | src/AppBundle/Service/GoogleApiService.php:86 | `(int)` of a scalar: null is 0, a boolean 0 or 1, an integer itself, a string as `StringToInt`; `RangeNamesStartingRow` relies on it |
| Catalog.Property | src/AppBundle/Service/GoogleApiService.php:55 | `$entry[$key]` is the stored value when the entry has that key, and null otherwise |
| Catalog.AllRows | src/AppBundle/Command/CaptureLookupsCommand.php:147-149 | the earlier listing: one row per mapping, in order; `AllRowsAt` states each row |
| Catalog.UrlRows | src/Command/CaptureLookupsCommand.php:195-199 | the current listing: the rows of the mappings with a set `url`, in order; `UrlRowsMembers` and `UrlRowsAreSetRows` state it |
| Catalog.AllRowsAt | src/AppBundle/Command/CaptureLookupsCommand.php:147-149 | the unfiltered listing has one row per mapping, in order, holding its name and its `url` cell |
| Catalog.UrlRowsMembers | src/Command/CaptureLookupsCommand.php:195-199 | a row is in the filtered listing exactly when some mapping with a `url` produced that row |
| Catalog.UrlRowsAreSet | src/Command/CaptureLookupsCommand.php:196 | every row of the filtered listing has a set `url` |
| Catalog.UrlRowsAreSetRows | src/Command/CaptureLookupsCommand.php:195-199 | the current listing is the earlier one with the rows lacking a `url` removed, in the same order |
| FileNames.Strip | src/Command/CaptureLookupsCommand.php:136 | removing the risky characters leaves a string with none, and changes a safe string not at all |
| FileNames.StripAppend | src/Command/CaptureLookupsCommand.php:136 | stripping distributes over concatenation |
| FileNames.StripCounts | src/Command/CaptureLookupsCommand.php:136 | stripping keeps every safe character as often as it occurred and drops every other character |
| FileNames.PhpTrim | src/Command/CaptureLookupsCommand.php:136 | `trim` leaves no trim character at either end and adds no character |
| FileNames.TrimRemovesOnlySpaces | src/Command/CaptureLookupsCommand.php:136 | on a stripped string, trimming removes only spaces |
| FileNames.Collapse | src/Command/CaptureLookupsCommand.php:139 | collapsing runs of spaces makes the string no longer and adds no character; `CollapseRunOfSpaces` states that each run becomes exactly one space |
| FileNames.CollapseSpaceRun | src/Command/CaptureLookupsCommand.php:139 | a string of one or more spaces becomes a single space |
| FileNames.CollapseBeforeSpaces | src/Command/CaptureLookupsCommand.php:139 | a run of spaces that follows a non-space, or starts the string, becomes a single space at the end |
| FileNames.CollapseRunOfSpaces | src/Command/CaptureLookupsCommand.php:139 | a whole run of one or more spaces, between non-spaces or at either end, is replaced by exactly one space, and the text on each side collapses on its own |
| FileNames.CollapseNoDoubleSpace | src/Command/CaptureLookupsCommand.php:139 | after collapsing, no two spaces are adjacent |
| FileNames.CollapseKeepsSingleSpaces | src/Command/CaptureLookupsCommand.php:139 | a string without two adjacent spaces is left unchanged |
| FileNames.CollapseRemovesOnlySpaces | src/Command/CaptureLookupsCommand.php:139 | collapsing removes nothing but spaces |
| FileNames.CollapseAppend | src/Command/CaptureLookupsCommand.php:139 | collapsing distributes over a join at a non-space character |
| FileNames.IsRisky | src/Command/CaptureLookupsCommand.php:133-134 | `preg_match('~[^0-9a-z_\-\.\ ]~i', $file)` matches exactly when some character is outside the safe set; `Strip`, `SafeNameIsSafe` and `ResolvedFileIsSafe` are stated with it |
| FileNames.Candidate | src/Command/CaptureLookupsCommand.php:128 | the first name tried is `<document>-<sheet>.csv`; `TestSheetNameIsSafe` and `RunDescribesEachSheet` use it |
| FileNames.SafeName | src/Command/CaptureLookupsCommand.php:135-139 | the offered name: the transliterated `<document>-<sheet>` with its risky characters removed, then, for the current command, trimmed, suffixed ".csv" and space-collapsed, and for the earlier one (src/AppBundle/Command/CaptureLookupsCommand.php:91-92) only suffixed; `SafeNameIsSafe` and `SafeNameRulesDifferOnlyInSpaces` state its properties |
| FileNames.SafeNameIsSafe | src/Command/CaptureLookupsCommand.php:135-139 | the offered safe name, whatever the transliteration returns, has no risky character and ends in ".csv"; under the trimming rule of the current command it also has no leading space and no double space |
| FileNames.TrimmedNameIsSafe | src/Command/CaptureLookupsCommand.php:136-139 | trimming, suffixing ".csv" and collapsing a stripped name gives a safe ".csv" name with no leading or double space |
| FileNames.PlainNameIsSafe | src/AppBundle/Command/CaptureLookupsCommand.php:91-92 | the earlier command's safe name, stripped and suffixed, is safe and ends in ".csv" |
| FileNames.SafeNameRulesDifferOnlyInSpaces | src/AppBundle/Command/CaptureLookupsCommand.php:91-92 | the safe names of the two commands have the same characters apart from spaces |
| FileNames.TestSheetNameIsSafe | tests/Command/CaptureLookupsCommandTest.php:70 | the sheet "Test Sheet1" of "Testing Public Sheet" has the candidate name "Testing Public Sheet-Test Sheet1.csv", which is not risky, so it is written under that name |
| Confirmation.IsYes | src/Command/CaptureLookupsCommand.php:144 | the answer pattern `/^(y|yes)/i`; `YesPattern` proves it equal to its two alternatives |
| Confirmation.YesPattern | src/Command/CaptureLookupsCommand.php:144 | a reply matches exactly when it starts with `y` or with `yes`, in either case |
| Confirmation.Confirm | src/Command/CaptureLookupsCommand.php:141-146 | the outcome of a question whose default is `$forcedMode`; `ConfirmDefault` states when the default decides |
| Confirmation.ConfirmDefault | src/Command/CaptureLookupsCommand.php:141-146 | with no operator, or with an empty reply, the question gives its default; a non-empty reply gives the same answer whatever the default, namely whether it matches the pattern |
| SheetOutput.Path | src/Command/CaptureLookupsCommand.php:156 | the path is the destination, the separator and the file name; `RunDescribesEachSheet` and `RunWritesOnlySafeNames` state it |
| SheetOutput.ResolvedFile | src/Command/CaptureLookupsCommand.php:132-153 | the candidate name, or the safe name when the candidate is risky and the gate was accepted; `ResolvedFileIsSafe` states its properties |
| SheetOutput.Write | src/Command/CaptureLookupsCommand.php:169-173 | opening and writing: a directory path fails, and in this model every other path ends up holding exactly the rows; `StepEffect` states it |
| SheetOutput.Step | src/Command/CaptureLookupsCommand.php:127-175 | one pass of the loop body: the unsafe-name gate, the overwrite gate when the path exists, then the write; `StepEffect` states the files and questions of every case, and `StepGates` what each answer decides |
| SheetOutput.FileSystem.Open | src/Command/CaptureLookupsCommand.php:169 | `fopen($path, 'w')` fails on a directory, and otherwise creates or truncates the file; the other ways `fopen` can fail are not modelled (see "## Left out") |
| SheetOutput.FileSystem.PutRow | src/Command/CaptureLookupsCommand.php:171 | `fputcsv` appends one record to the open file |
| SheetOutput.WriteSheets | src/Command/CaptureLookupsCommand.php:126-176 | the output loop leaves exactly the files, and reports exactly the outcomes, that `Run` gives from the files it started with |
| SheetOutput.WriteSheet | src/Command/CaptureLookupsCommand.php:127-175 | one pass of the loop body is one `Step`: the unsafe-name gate, the overwrite gate, then the write |
| SheetOutput.WriteFile | src/Command/CaptureLookupsCommand.php:169-173 | the file ends up holding exactly the sheet's rows in order, or the open fails on a directory, the only open failure the model has |
| SheetOutput.Run | src/AppBundle/Command/CaptureLookupsCommand.php:81-128 | the loop reports one outcome per sheet |
| SheetOutput.StepEffect | src/Command/CaptureLookupsCommand.php:134-175 | a step reports the sheet's own file or path, changes only the file it writes (replacing its contents with the rows), and asks the unsafe-name question exactly when the name is risky and the overwrite question exactly when it passes that gate and the path exists |
| SheetOutput.StepGates | src/Command/CaptureLookupsCommand.php:134-173 | for every console: declining the unsafe-name question skips the sheet; past it, declining the overwrite question of an existing path skips it and leaves the files alone; otherwise the sheet's resolved name, the safe one for a risky candidate, is written, or fails to open when it is a directory |
| SheetOutput.ResolvedFileIsSafe | src/Command/CaptureLookupsCommand.php:155-156 | the file a sheet is written to is safe, ends in ".csv" and has no directory separator |
| SheetOutput.RunOutcomeAt | src/Command/CaptureLookupsCommand.php:126 | the k-th outcome is the step of the k-th sheet, taken after the sheets before it |
| SheetOutput.RunDescribesEachSheet | src/Command/CaptureLookupsCommand.php:128-156 | every outcome belongs to its own sheet, in order; a safe sheet's path is `<destination>/<document>-<sheet>.csv` |
| SheetOutput.RunWritesOnlySafeNames | src/AppBundle/Command/CaptureLookupsCommand.php:83-108 | every file written lies directly inside the destination and has a safe ".csv" name |
| SheetOutput.WrittenAt | src/Command/CaptureLookupsCommand.php:169 | a path recorded as written was written by some sheet |
| SheetOutput.RunFiles | src/Command/CaptureLookupsCommand.php:159-173 | after the loop, a path some sheet was written to holds the rows of the last such sheet; every other path, including each declined one, is unchanged |
| SheetOutput.RunForced | src/Command/CaptureLookupsCommand.php:141-166 | a forced non-interactive run never skips: every sheet is written under its resolved name, unless that path is a directory, the only open failure the model has |
| SheetOutput.RunUnforced | src/Command/CaptureLookupsCommand.php:141-166 | an unforced non-interactive run skips exactly the risky names, never fails to open, and never overwrites a file: no file that existed before changes, and no two sheets write the same file |
| SheetOutput.RunUnforcedAgain | tests/Command/CaptureLookupsCommandTest.php:72-86 | repeating an unforced non-interactive run over the same sheets changes nothing and skips every sheet |
| SheetOutput.RunSkipsWhenAllExist | src/Command/CaptureLookupsCommand.php:159-166 | an unforced non-interactive run skips everything when every safe sheet's path exists |
| SheetOutput.FilesOnlyGrow | src/Command/CaptureLookupsCommand.php:169 | the loop never removes a file |
| SheetOutput.WrittenStays | src/Command/CaptureLookupsCommand.php:169 | a path written by some sheet is still recorded as written at the end |
| SheetOutput.NewFileStays | src/Command/CaptureLookupsCommand.php:169 | a file present part-way through the loop is present at its end |
| SheetOutput.RunForcedAgain | tests/Command/CaptureLookupsCommandTest.php:110-124 | repeating a forced non-interactive run over the same sheets leaves exactly the same files |
| CommandLine.DestinationArgument | src/Command/CaptureLookupsCommand.php:71 | `--destination ?: getcwd()`: an absent, empty or "0" option falls back to the working directory |
| CommandLine.Destination | src/Command/CaptureLookupsCommand.php:71 | the `realpath` of that argument, once the checks accepted it |
| CommandLine.MappingKey | src/Command/CaptureLookupsCommand.php:92 | the key `$mapping[$mappingName]` looks up: the `--sheet` value, or "" when it is null |
| CommandLine.JobFor | src/Command/CaptureLookupsCommand.php:120-146 | what the output loop reads: the destination, the document name, the force flag as every question's default, the transliteration and the operator |
| CommandLine.CheckDestination | src/Command/CaptureLookupsCommand.php:71-89 | the checks fail, with one of the three destination errors, exactly unless the resolved destination is non-empty, a directory and writable |
| GoogleApi.EndsInUnderscore | src/AppBundle/Service/GoogleApiService.php:70 | `preg_match('~_$~', $title)`: the title ends in `_`, or in `_` and one final newline; `KeptTitlesMembers` is stated with it |
| GoogleApi.Retained | src/AppBundle/Service/GoogleApiService.php:64-82 | the sheet map the first loop builds, each title not ending in `_` assigned an empty row list; `RetainedKeys`, `RetainedWellFormed` and `RetainedEmpty` state it |
| GoogleApi.KeptTitles | src/AppBundle/Service/GoogleApiService.php:65-82 | an independent description of the map's keys: the kept titles in document order, a repeated title dropped; `RetainedKeys` equates the two |
| GoogleApi.StartingRow | src/AppBundle/Service/GoogleApiService.php:86 | `(int)` of a set `startingFromRow`, and 1 otherwise; `DefaultRange` and `RangeNamesStartingRow` state it |
| GoogleApi.DataRange | src/AppBundle/Service/GoogleApiService.php:87 | the range `A<row>:ZZ`; `RangeNamesStartingRow` states it |
| GoogleApi.UseBatch | src/AppBundle/Service/GoogleApiService.php:90 | the batched request is used exactly when more than one sheet is kept and `batchGet` is set and truthy; `FetchBatched` and `FetchEachSheet` are stated with it |
| GoogleApi.RetainedWellFormed | src/AppBundle/Service/GoogleApiService.php:65-82 | the sheet map built before the fetch has each title once |
| GoogleApi.RetainedKeys | src/AppBundle/Service/GoogleApiService.php:65-82 | its keys are the kept titles in document order, a repeated title kept at its first place |
| GoogleApi.KeptTitlesMembers | src/AppBundle/Service/GoogleApiService.php:70 | a title is kept exactly when it does not end in `_`, where `$` also matches before a final newline |
| GoogleApi.RetainedEmpty | src/AppBundle/Service/GoogleApiService.php:74-79 | no kept sheet has rows before its values are fetched |
| GoogleApi.KeepSheets | src/AppBundle/Service/GoogleApiService.php:64-82 | the filtering loop builds exactly `Retained` of the titles |
| GoogleApi.DefaultRange | src/AppBundle/Service/GoogleApiService.php:86-87 | without `startingFromRow` the range is "A1:ZZ" |
| GoogleApi.RangeNamesStartingRow | src/AppBundle/Service/GoogleApiService.php:86-87 | the range is `A<row>:ZZ`, and its row number reads back as the starting row |
| GoogleApi.BatchRanges | src/AppBundle/Service/GoogleApiService.php:94 | one range `name!range` per sheet, in key order |
| GoogleApi.LabelRun | src/AppBundle/Service/GoogleApiService.php:99 | `[^'!]+` takes the longest run with neither a quote nor `!` |
| GoogleApi.ParseRangeLabel | src/AppBundle/Service/GoogleApiService.php:99-101 | the group the label pattern captures, or None when it does not match; `ParseRangeLabelSound` and `ParseRangeLabelComplete` prove it is the pattern's match, in both directions |
| GoogleApi.ParseRangeLabelSound | src/AppBundle/Service/GoogleApiService.php:99-101 | what a label parses to is a match of `^'?([^'!]+)'?!` |
| GoogleApi.ParseRangeLabelComplete | src/AppBundle/Service/GoogleApiService.php:99-101 | any match of the pattern is what the label parses to |
| GoogleApi.RunOfPrefix | src/AppBundle/Service/GoogleApiService.php:99 | the group ends at the first quote or `!` |
| GoogleApi.LabelNamesTitle | src/AppBundle/Service/GoogleApiService.php:99-103 | a title with no quote and no `!` is read back from its range label, quoted or not |
| GoogleApi.BangSplitsTitle | src/AppBundle/Service/GoogleApiService.php:99-103 | the values of a sheet titled "A!B" are stored under "A" |
| GoogleApi.QuoteDefeatsParse | src/AppBundle/Service/GoogleApiService.php:99-103 | a quoted label whose title has a quote, doubled, before any `!` does not match, and the batch loop leaves every sheet as it was for that range |
| GoogleApi.QuotedTitleDropped | src/AppBundle/Service/GoogleApiService.php:99-101 | the label `'It''s'!A1:ZZ` of the title "It's" does not match |
| GoogleApi.ApplyBatch | src/AppBundle/Service/GoogleApiService.php:98-105 | the batch loop: each range in answer order, its values assigned under the name its label reads back as, or skipped when the label does not match; `ApplyBatchValues` and `BatchReconciles` state what it leaves |
| GoogleApi.ApplyBatchValues | src/AppBundle/Service/GoogleApiService.php:98-105 | after the batch loop a name holds the rows of the last range labelled with it, or what it held before; the kept sheets stay first; keys stay unique |
| GoogleApi.BatchReconciles | src/AppBundle/Service/GoogleApiService.php:92-105 | when every requested range comes back in order under its own name, each kept sheet holds its own rows and no key is added |
| GoogleApi.BatchPrefix | src/AppBundle/Service/GoogleApiService.php:98-105 | the same, for a prefix of the answer |
| GoogleApi.FillFromBatch | src/AppBundle/Service/GoogleApiService.php:98-105 | the batch loop computes exactly `ApplyBatch` |
| GoogleApi.PerSheet | src/AppBundle/Service/GoogleApiService.php:107-112 | the per-sheet loop keeps the number of sheets |
| GoogleApi.PerSheetRequests | src/AppBundle/Service/GoogleApiService.php:109 | it sends one request per sheet |
| GoogleApi.PerSheetKeys | src/AppBundle/Service/GoogleApiService.php:107-112 | the per-sheet loop keeps the keys and their order |
| GoogleApi.PerSheetValues | src/AppBundle/Service/GoogleApiService.php:109-110 | each sheet gets the answer for its own `name!range` |
| GoogleApi.PerSheetRequestsAt | src/AppBundle/Service/GoogleApiService.php:109 | the i-th request asks for the i-th sheet's range |
| GoogleApi.FillEach | src/AppBundle/Service/GoogleApiService.php:107-112 | the by-reference loop updates each sheet in place with its answer and sends its request |
| GoogleApi.FetchValues | src/AppBundle/Service/GoogleApiService.php:90-112 | values come from the batched request or the per-sheet requests, as `FillValues` says |
| GoogleApi.FillValues | src/AppBundle/Service/GoogleApiService.php:89-113 | the values of the kept sheets from one batched request or from one request per sheet, with the requests sent; `FetchBatched` and `FetchEachSheet` state both branches |
| GoogleApi.Fetch | src/AppBundle/Service/GoogleApiService.php:57-115 | the document is read, its sheets filtered, their values fetched, and the title and the sheet map returned; `FetchBatched` and `FetchEachSheet` state it |
| GoogleApi.Load | src/AppBundle/Service/GoogleApiService.php:52-119 | `loadSheets`: the fetch of the mapping's entry when it has a `url`, and the configuration error otherwise; `LoadFailsWithoutUrl` states both cases |
| GoogleApi.LoadSheets | src/AppBundle/Service/GoogleApiService.php:52-119 | `loadSheets` returns, and sends, exactly what `Load` gives |
| GoogleApi.LoadFailsWithoutUrl | src/AppBundle/Service/GoogleApiService.php:55-57 | it fails with "Mapping X doesn't exist or has no URL configured.", sending nothing, exactly when the id is missing or has no `url`; otherwise it is the fetch of that entry |
| GoogleApi.FetchBatched | src/AppBundle/Service/GoogleApiService.php:61-95 | the document is read first and gives the title; the batched request is sent exactly when more than one sheet is kept and `batchGet` is truthy, and lists `name!range` for every kept sheet |
| GoogleApi.FetchEachSheet | src/AppBundle/Service/GoogleApiService.php:107-115 | otherwise one request per kept sheet follows, and the result holds exactly the kept titles, each with the answer to its request |
| GoogleApi.GetSpreadsheetId | src/AppBundle/Service/GoogleApiService.php:127-129 | `preg_replace` applied line by line: each line with a marker followed by an id character becomes that id, any other line stays; `SpreadsheetIdOfLine`, `SpreadsheetIdOfUrl` and `SpreadsheetIdWithoutMarker` state it |
| GoogleApi.LastMarkerBelow | src/AppBundle/Service/GoogleApiService.php:128 | the greedy `.*` stops at the last "spreadsheets/d/" followed by an id character |
| GoogleApi.IdRun | src/AppBundle/Service/GoogleApiService.php:128 | `([a-zA-Z0-9\-]+)` captures the longest run of id characters |
| GoogleApi.LineLength | src/AppBundle/Service/GoogleApiService.php:128 | `.` stops at the first newline |
| GoogleApi.IdRunOf | src/AppBundle/Service/GoogleApiService.php:128 | a run of id characters followed by another character is captured whole |
| GoogleApi.OneLine | src/AppBundle/Service/GoogleApiService.php:128 | a url without a newline is rewritten as one line |
| GoogleApi.LastMarkerIs | src/AppBundle/Service/GoogleApiService.php:128 | the last marker of a line is the one the pattern uses |
| GoogleApi.SpreadsheetIdOfLine | src/AppBundle/Service/GoogleApiService.php:127-129 | on one line, the id is the non-empty run of id characters after the last marker |
| GoogleApi.SpreadsheetIdOfUrl | src/AppBundle/Service/GoogleApiService.php:127-129 | a one-line url whose last marker is followed by `id` gives `id` |
| GoogleApi.MarkerInPrefix | src/AppBundle/Service/GoogleApiService.php:128 | a marker in a prefix is a marker of the whole url |
| GoogleApi.MarkerInSuffix | src/AppBundle/Service/GoogleApiService.php:128 | a marker in a suffix is a marker of the whole url |
| GoogleApi.NoMarkerInPrefix | src/AppBundle/Service/GoogleApiService.php:128 | a url without a marker has none in its prefixes |
| GoogleApi.NoMarkerInSuffix | src/AppBundle/Service/GoogleApiService.php:128 | nor in its suffixes |
| GoogleApi.LineWithoutMarker | src/AppBundle/Service/GoogleApiService.php:128 | a line without a marker is left as it is |
| GoogleApi.SpreadsheetIdWithoutMarker | src/AppBundle/Service/GoogleApiService.php:127-129 | a url with no marker followed by an id character comes back unchanged |
| CaptureLookups.Effect | src/Command/CaptureLookupsCommand.php:64-181 | what a run of the current command does: the destination checks, the listing, the service's error, or the output loop over the loaded sheets; the lemmas below state each case |
| CaptureLookups.Execute | src/Command/CaptureLookupsCommand.php:64-181 | the command leaves exactly the files and result `Effect` gives |
| CaptureLookups.ListKnownSheets | src/Command/CaptureLookupsCommand.php:188-202 | the listing is exactly the mappings with a `url`, in mapping order |
| CaptureLookups.DestinationFailsFirst | src/Command/CaptureLookupsCommand.php:71-89 | a failed destination check ends the run with that error, changes no file, and does not depend on the mapping or the sheets |
| CaptureLookups.UnknownMappingLists | src/Command/CaptureLookupsCommand.php:92-93 | an unset mapping name lists exactly the mappings with a `url`, loads nothing and changes no file |
| CaptureLookups.KnownMappingWrites | src/Command/CaptureLookupsCommand.php:113-176 | a service error ends the run with no file written; otherwise there is one outcome per sheet, every changed file was written by some sheet, and each written file is a safe ".csv" name directly in the destination, trimmed and collapsed when the candidate was risky |
| CaptureLookups.UnforcedRerunChangesNothing | tests/Command/CaptureLookupsCommandTest.php:49-93 | without `--force` and without an operator, a second identical run writes nothing and skips every sheet |
| CaptureLookups.ForcedRerunSameFiles | tests/Command/CaptureLookupsCommandTest.php:95-124 | with `--force` and without an operator, every sheet is written unless its path is a directory, and a second identical run leaves the same files |
| LegacyCaptureLookups.Effect | src/AppBundle/Command/CaptureLookupsCommand.php:40-136 | what a run of the earlier command does, with the requests it sends; the lemmas below state each case |
| LegacyCaptureLookups.Execute | src/AppBundle/Command/CaptureLookupsCommand.php:40-136 | the command leaves exactly the files, result and requests `Effect` gives |
| LegacyCaptureLookups.ListKnownSheets | src/AppBundle/Command/CaptureLookupsCommand.php:141-152 | the listing is every mapping, in order, with its `url` cell |
| LegacyCaptureLookups.DestinationFailsFirst | src/AppBundle/Command/CaptureLookupsCommand.php:47-62 | a failed destination check ends the run with that error before anything is sent or written, whatever the mapping and the document |
| LegacyCaptureLookups.UnknownMappingListsAll | src/AppBundle/Command/CaptureLookupsCommand.php:133-134 | an unset mapping name lists every mapping with its `url` cell, sends nothing and writes nothing |
| LegacyCaptureLookups.NullSheetIsTypeError | src/AppBundle/Command/CaptureLookupsCommand.php:66-72 | without `--sheet`, a set key "" gets the null mapping name past `isset` and into `loadSheets(string)`, ending the run in a type error with nothing sent or written |
| LegacyCaptureLookups.MappingWithoutUrlFails | src/AppBundle/Command/CaptureLookupsCommand.php:72 | a set mapping without a `url` ends the run with the service's configuration error, with nothing sent or written |
| LegacyCaptureLookups.KnownMappingWrites | src/AppBundle/Command/CaptureLookupsCommand.php:72-128 | a mapping with a `url` is fetched; the loop gives one outcome per loaded sheet; every changed file was written by some sheet and has a safe ".csv" name directly in the destination |
| LegacyCaptureLookups.UnforcedRerunChangesNothing | tests/AppBundle/Command/CaptureLookupsCommandTest.php:61-105 | without `--force` and without an operator, a second run against the same document writes nothing, skips every sheet and sends the same requests |
| LegacyCaptureLookups.ForcedRerunSameFiles | tests/AppBundle/Command/CaptureLookupsCommandTest.php:107-137 | with `--force` and without an operator, every sheet is written unless its path is a directory, and a second run leaves the same files |

## Left out

- The Google client, its authentication and the network. They become the
  `Remote` value, which answers each request with a fixed reply. Request
  failures and exceptions from the client are not modelled.
- Null from the API. `getValues()` returning null, and so an empty file
  from a `foreach` over null, is not modelled: an answer is always a list
  of rows.
- YAML parsing of the mapping file, the locating of the mapping and
  credentials files (`setCredentials`, `getMappingFilePath`,
  `getGApiServiceAccountCredentialsFileOption`) and their messages.
- `getMapping()`. Its body is not part of the service file here, so the
  parsed mapping is an input.
- The sheet service of the current command. `src/Service/GoogleApiService.php`
  is not part of this model; its answer is the input `load`.
- Console output. The progress messages, the `[Y/n]` hints and the
  `Table` rendering are not modelled. A listing is the sequence of its rows.
- `iconv` transliteration is an arbitrary function, `translit`. The safe
  name is proved safe whatever it returns. Its failure (returning false)
  is not modelled.
- `fputcsv` quoting and escaping. A file's contents are the sequence of
  rows written to it, not its bytes. `fclose` has no effect in the model.
- `realpath`, `is_dir` and `is_writable` are the inputs `realpath`, `dirs`
  and `writable`. Symbolic links are not modelled, and the destination's
  permissions are only "writable or not". `fopen` on a directory gives the
  `OpenFailed` outcome; the run carries on with the next sheet, as under
  PHP 7, where writes to the failed handle only raise warnings. Under PHP 8 a failed handle makes
  the first `fputcsv` throw a `TypeError`, or `fclose` when the sheet has
  no rows, and that is not modelled.
- `SheetOutput.FileSystem.Open`: the open fails only on a directory. The
  other ways `fopen($path, 'w')` fails are not modelled: an existing file
  without write permission inside a writable destination, or a name longer
  than the file system allows. On such a path PHP leaves the file as it was
  and still prints "Done.", while the model writes the rows there.
  `SheetOutput.Write`, `SheetOutput.WriteFile`, `SheetOutput.StepEffect`,
  `SheetOutput.RunFiles`, `SheetOutput.RunForced` and
  `SheetOutput.RunUnforced` (which never fails to open) inherit this, and so
  do the command-level lemmas that rest on them.
- Integer mapping keys. PHP turns a numeric-string key such as "1" into an
  integer key, but the model keeps every key a string.
- Entries whose properties are arrays or objects. A property value is a
  scalar.
- `PhpValues.StringToInt`: the `(int)` cast of numeric strings in exponent
  form, such as "1e3", and of floats is not modelled. Only integers,
  booleans, null and decimal-prefix strings are cast. A string with a
  fractional part is read by its integer prefix, which agrees with PHP 7
  only while the number fits a double exactly: PHP converts such a string
  through a double, so `(int)"12345678901234567.5"` is 12345678901234568,
  where the model gives 12345678901234567.
- `PhpValues.Clamp`: the cast's saturation matches PHP 7 and later on
  64-bit platforms; 32-bit platforms are not modelled.
- The earlier command reading `$mappingProperties['url']` on an entry that
  is a bare string or number. PHP would index into the string or raise an
  error; the model's `Property` gives null.
- `SheetOutput.DirectorySeparator` is "/": Windows paths, where
  `DIRECTORY_SEPARATOR` is a backslash, are not modelled.
- `Confirmation.Confirm` gives every interactive question a reply line. End
  of input in an interactive run, where the console aborts the run, is not
  modelled.
- Concurrency, signals and files changed by other processes during a run.
