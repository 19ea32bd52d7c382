/**
 * The sheet fetcher of the bundled service (`GoogleApiService`): it looks up
 * a mapping entry, reads the document's sheet list, keeps the sheets whose
 * title does not end in an underscore, and fills each kept sheet's values,
 * either with one batched request or with one request per sheet.
 *
 * The remote API is a value of functions: the document a spreadsheet id
 * names, the rows of one range, and the value ranges a batched request
 * answers with. Every request the fetcher issues is recorded, in order.
 */
module GoogleApi {
  import opened OrderedMaps
  import opened PhpValues
  import opened Catalog
  import SheetOutput

  type Row = SheetOutput.Row

  /** A document as `spreadsheets->get` describes it: its title and its sheets' titles, in order. */
  datatype Spreadsheet = Spreadsheet(title: string, sheetTitles: seq<string>)

  /** One answer of a batched request: the range it covers, labelled by the API, and its rows. */
  datatype ValueRange = ValueRange(range: string, values: seq<Row>)

  datatype Request =
    | GetSpreadsheet(spreadsheetId: string)
    | GetValues(spreadsheetId: string, range: string)
    | BatchGetValues(spreadsheetId: string, ranges: seq<string>)

  datatype Remote = Remote(spreadsheet: string -> Spreadsheet,
                           values: (string, string) -> seq<Row>,
                           batch: (string, seq<string>) -> seq<ValueRange>)

  datatype LoadResult =
    | Loaded(title: string, sheets: OMap<seq<Row>>)
    | InvalidConfiguration(message: string)   // InvalidConfigurationException

  function InvalidMappingMessage(mappingId: string): string
  {
    "Mapping " + mappingId + " doesn't exist or has no URL configured."
  }

  // ---------------------------------------------------------------------------
  // Which sheets are kept

  /** `preg_match('~_$~', $title)`: `$` also matches before a final newline. */
  predicate EndsInUnderscore(title: string)
  {
    (|title| >= 1 && title[|title| - 1] == '_') || (|title| >= 2 && title[|title| - 2..] == "_\n")
  }

  /** The sheet map before any values are fetched: each kept title with no rows. */
  function Retained(titles: seq<string>): OMap<seq<Row>>
    decreases |titles|
  {
    if titles == [] then []
    else
      var kept := Retained(titles[..|titles| - 1]);
      var title := titles[|titles| - 1];
      if EndsInUnderscore(title) then kept else Assign(kept, title, [])
  }

  /** The kept titles in document order, a title occurring again being dropped. */
  function KeptTitles(titles: seq<string>): seq<string>
    decreases |titles|
  {
    if titles == [] then []
    else
      var kept := KeptTitles(titles[..|titles| - 1]);
      var title := titles[|titles| - 1];
      if EndsInUnderscore(title) || title in kept then kept else kept + [title]
  }

  /** Each kept title is a key once: the sheet map is a well-formed PHP array. */
  lemma {:induction false} RetainedWellFormed(titles: seq<string>)
    ensures WellFormed(Retained(titles))
    decreases |titles|
  {
    if titles != [] {
      var init := titles[..|titles| - 1];
      RetainedWellFormed(init);
      if !EndsInUnderscore(titles[|titles| - 1]) {
        AssignWellFormed(Retained(init), titles[|titles| - 1], []);
      }
    }
  }

  /** The kept sheets are the kept titles, each once, in the order the document lists them. */
  lemma {:induction false} RetainedKeys(titles: seq<string>)
    ensures Keys(Retained(titles)) == KeptTitles(titles)
    decreases |titles|
  {
    if titles != [] {
      RetainedKeys(titles[..|titles| - 1]);
    }
  }

  /** A title is kept exactly when it does not end in an underscore. */
  lemma {:induction false} KeptTitlesMembers(titles: seq<string>)
    ensures forall t :: t in KeptTitles(titles) <==> t in titles && !EndsInUnderscore(t)
    decreases |titles|
  {
    if titles != [] {
      var init := titles[..|titles| - 1];
      KeptTitlesMembers(init);
      assert titles == init + [titles[|titles| - 1]];
    }
  }

  /** No kept sheet has rows before its values are fetched. */
  lemma {:induction false} RetainedEmpty(titles: seq<string>)
    ensures forall i :: 0 <= i < |Retained(titles)| ==> Retained(titles)[i].1 == []
    decreases |titles|
  {
    if titles != [] {
      var init := titles[..|titles| - 1];
      var title := titles[|titles| - 1];
      var kept := Retained(init);
      RetainedEmpty(init);
      if !EndsInUnderscore(title) {
        match IndexOf(kept, title)
        case Some(j) =>
          assert Assign(kept, title, []) == kept[j := (title, [])];
        case None =>
          assert Assign(kept, title, []) == kept + [(title, [])];
      }
    }
  }

  // ---------------------------------------------------------------------------
  // The range and the choice of request

  /** `isset($mapping['startingFromRow']) ? (int)$mapping['startingFromRow'] : 1`. */
  function StartingRow(entry: Entry): int
  {
    var v := Property(entry, "startingFromRow");
    if IsSet(v) then IntCast(v) else 1
  }

  /** `'A' . $startingRow . ':ZZ'`: every column, from the starting row down. */
  function DataRange(entry: Entry): string
  {
    "A" + IntToDecimal(StartingRow(entry)) + ":ZZ"
  }

  /** An entry without `startingFromRow` reads the whole sheet. */
  lemma DefaultRange(entry: Entry)
    requires !IsSet(Property(entry, "startingFromRow"))
    ensures DataRange(entry) == "A1:ZZ"
  {
    assert NatToDecimal(1) == "1";
  }

  /** The row number inside the range reads back, by the same `(int)` cast, as the starting row. */
  lemma RangeNamesStartingRow(entry: Entry)
    requires IntMin <= StartingRow(entry) <= IntMax
    ensures var r := DataRange(entry);
      |r| >= 4 && r[0] == 'A' && r[|r| - 3..] == ":ZZ" && StringToInt(r[1..|r| - 3]) == StartingRow(entry)
  {
    var r := DataRange(entry);
    var n := IntToDecimal(StartingRow(entry));
    assert r[1..|r| - 3] == n;
    DecimalRoundTrip(StartingRow(entry));
  }

  /** `count($sheets) > 1 && isset($mapping['batchGet']) && $mapping['batchGet']`. */
  predicate UseBatch(entry: Entry, count: nat)
  {
    var flag := Property(entry, "batchGet");
    count > 1 && IsSet(flag) && Truthy(flag)
  }

  /** `array_map(fn($sheetName) => $sheetName.'!'.$range, array_keys($sheets))`. */
  function BatchRanges(names: seq<string>, range: string): (ranges: seq<string>)
    ensures |ranges| == |names|
    ensures forall i :: 0 <= i < |names| ==> ranges[i] == names[i] + "!" + range
  {
    if names == [] then [] else [names[0] + "!" + range] + BatchRanges(names[1..], range)
  }

  // ---------------------------------------------------------------------------
  // Reading a returned range label back to a sheet name

  predicate IsLabelChar(c: char)
  {
    c != '\'' && c != '!'
  }

  /** The longest prefix of `s` with neither a quote nor an exclamation mark. */
  function LabelRun(s: string): (r: string)
    ensures |r| <= |s| && r == s[..|r|]
    ensures forall k :: 0 <= k < |r| ==> IsLabelChar(r[k])
    ensures |r| < |s| ==> !IsLabelChar(s[|r|])
  {
    if s != [] && IsLabelChar(s[0]) then [s[0]] + LabelRun(s[1..]) else []
  }

  /**
   * `preg_match('~^\'?([^\'!]+)\'?!~', $label, $matches)` and `$matches[1]`:
   * an optional opening quote, the longest run of other characters, then
   * `!` or `'!`; None when the label does not match.
   */
  function ParseRangeLabel(rangeLabel: string): Option<string>
  {
    var i := if rangeLabel != [] && rangeLabel[0] == '\'' then 1 else 0;
    var name := LabelRun(rangeLabel[i..]);
    var j := i + |name|;
    if name != [] && ((j < |rangeLabel| && rangeLabel[j] == '!') || (j + 1 < |rangeLabel| && rangeLabel[j] == '\'' && rangeLabel[j + 1] == '!'))
    then Some(name) else None
  }

  /**
   * The pattern matches `label` with `open` characters of opening quote
   * (0 or 1) and group `name`: what the regular expression can match,
   * independently of how the engine searches.
   */
  predicate LabelMatches(rangeLabel: string, open: nat, name: string)
  {
    && open <= 1
    && (open == 1 ==> rangeLabel != [] && rangeLabel[0] == '\'')
    && name != [] && (forall k :: 0 <= k < |name| ==> IsLabelChar(name[k]))
    && open + |name| <= |rangeLabel| && rangeLabel[open..open + |name|] == name
    && var j := open + |name|;
       (j < |rangeLabel| && rangeLabel[j] == '!') || (j + 1 < |rangeLabel| && rangeLabel[j] == '\'' && rangeLabel[j + 1] == '!')
  }

  /** Whatever the label parses to is a match of the pattern. */
  lemma ParseRangeLabelSound(rangeLabel: string)
    requires ParseRangeLabel(rangeLabel).Some?
    ensures LabelMatches(rangeLabel, if rangeLabel != [] && rangeLabel[0] == '\'' then 1 else 0, ParseRangeLabel(rangeLabel).value)
  {
  }

  /** A match of the pattern determines its group: the label parses to it. */
  lemma ParseRangeLabelComplete(rangeLabel: string, open: nat, name: string)
    requires LabelMatches(rangeLabel, open, name)
    ensures ParseRangeLabel(rangeLabel) == Some(name)
  {
    var i := if rangeLabel != [] && rangeLabel[0] == '\'' then 1 else 0;
    assert open == 0 ==> rangeLabel[0] == name[0];
    assert open == i;
    var run := LabelRun(rangeLabel[i..]);
    var s := rangeLabel[i..];
    var j := i + |name|;
    assert j < |rangeLabel| && (rangeLabel[j] == '!' || rangeLabel[j] == '\'');
    assert s[..|name|] == rangeLabel[i..j] == name;
    assert s[|name|] == rangeLabel[j];
    RunOfPrefix(s, name);
    assert run == name;
  }

  /** The longest run of label characters is the given run when a non-label character follows it. */
  lemma {:induction false} RunOfPrefix(s: string, name: string)
    requires |name| < |s| && s[..|name|] == name && !IsLabelChar(s[|name|])
    requires forall k :: 0 <= k < |name| ==> IsLabelChar(name[k])
    ensures LabelRun(s) == name
  {
    if name != [] {
      assert s[1..][..|name| - 1] == name[1..];
      RunOfPrefix(s[1..], name[1..]);
    }
  }

  /**
   * A title with neither a quote nor an exclamation mark is read back from
   * the label the API gives its range, quoted or not.
   */
  lemma LabelNamesTitle(title: string, cells: string)
    requires title != [] && forall k :: 0 <= k < |title| ==> IsLabelChar(title[k])
    ensures ParseRangeLabel(title + "!" + cells) == Some(title)
    ensures ParseRangeLabel("'" + title + "'!" + cells) == Some(title)
  {
    var plain := title + "!" + cells;
    if title[0] == '\'' {
      assert false;
    }
    assert plain[0..|title|] == title;
    ParseRangeLabelComplete(plain, 0, title);
    var quoted := "'" + title + "'!" + cells;
    assert quoted[1..1 + |title|] == title;
    assert quoted[1 + |title|] == '\'' && quoted[2 + |title|] == '!';
    ParseRangeLabelComplete(quoted, 1, title);
  }

  /**
   * A title holding an exclamation mark is read back as the part before it:
   * the values of sheet "A!B" land under a new key "A".
   */
  lemma BangSplitsTitle()
    ensures ParseRangeLabel("'A!B'!A1:ZZ") == Some("A")
  {
    ParseRangeLabelComplete("'A!B'!A1:ZZ", 1, "A");
  }

  /**
   * A title whose first quote comes before any exclamation mark, with that
   * quote doubled inside the quoted label the API returns, is not read back
   * at all, and the batch loop drops the values of that range.
   */
  lemma QuoteDefeatsParse(before: string, after: string, sheets: OMap<seq<Row>>, ranges: seq<ValueRange>, values: seq<Row>)
    requires forall k :: 0 <= k < |before| ==> IsLabelChar(before[k])
    ensures ParseRangeLabel("'" + before + "''" + after) == None
    ensures ApplyBatch(sheets, ranges + [ValueRange("'" + before + "''" + after, values)]) == ApplyBatch(sheets, ranges)
  {
    var rangeLabel := "'" + before + "''" + after;
    var s := rangeLabel[1..];
    assert s == before + "''" + after;
    assert s[..|before|] == before && s[|before|] == '\'';
    RunOfPrefix(s, before);
    var j := 1 + |before|;
    assert rangeLabel[j] == '\'' && rangeLabel[j + 1] == '\'';
    var all := ranges + [ValueRange(rangeLabel, values)];
    assert all[..|all| - 1] == ranges;
  }

  /** The title "It's", whose label is `'It''s'!A1:ZZ`, is one of them. */
  lemma QuotedTitleDropped()
    ensures ParseRangeLabel("'It''s'!A1:ZZ") == None
  {
    QuoteDefeatsParse("It", "s'!A1:ZZ", [], [], []);
    assert "'" + "It" + "''" + "s'!A1:ZZ" == "'It''s'!A1:ZZ";
  }

  // ---------------------------------------------------------------------------
  // Filling the values

  /** The batch loop: each value range whose label parses assigns its rows to that name. */
  function ApplyBatch(sheets: OMap<seq<Row>>, ranges: seq<ValueRange>): OMap<seq<Row>>
    decreases |ranges|
  {
    if ranges == [] then sheets
    else
      var before := ApplyBatch(sheets, ranges[..|ranges| - 1]);
      var last := ranges[|ranges| - 1];
      match ParseRangeLabel(last.range)
      case Some(name) => Assign(before, name, last.values)
      case None => before
  }

  /** What `name` holds after the batch loop, by the last range labelled with it. */
  function BatchValue(sheets: OMap<seq<Row>>, ranges: seq<ValueRange>, name: string): Option<seq<Row>>
  {
    match LastRangeFor(ranges, name)
    case Some(rows) => Some(rows)
    case None => Get(sheets, name)
  }

  /** The rows of the last value range whose label parses to `name`. */
  function LastRangeFor(ranges: seq<ValueRange>, name: string): Option<seq<Row>>
    decreases |ranges|
  {
    if ranges == [] then None
    else if ParseRangeLabel(ranges[|ranges| - 1].range) == Some(name) then Some(ranges[|ranges| - 1].values)
    else LastRangeFor(ranges[..|ranges| - 1], name)
  }

  /**
   * After the batch loop a name holds the rows of the last range labelled
   * with it, or what it held before when no label names it; the kept
   * sheets stay first, in order, and a label naming no kept sheet adds a
   * key after them.
   */
  lemma {:induction false} ApplyBatchValues(sheets: OMap<seq<Row>>, ranges: seq<ValueRange>)
    ensures forall name :: Get(ApplyBatch(sheets, ranges), name) == BatchValue(sheets, ranges, name)
    ensures Keys(sheets) <= Keys(ApplyBatch(sheets, ranges))
    ensures WellFormed(sheets) ==> WellFormed(ApplyBatch(sheets, ranges))
    decreases |ranges|
  {
    if ranges != [] {
      var init := ranges[..|ranges| - 1];
      ApplyBatchValues(sheets, init);
      var last := ranges[|ranges| - 1];
      match ParseRangeLabel(last.range)
      case Some(name) =>
        if WellFormed(sheets) {
          AssignWellFormed(ApplyBatch(sheets, init), name, last.values);
        }
      case None =>
    }
  }

  /**
   * When the API answers every requested range, in request order, with a
   * label that reads back as that sheet's name, the batch loop fills every
   * kept sheet with its own rows and adds no key.
   */
  lemma {:induction false} BatchReconciles(sheets: OMap<seq<Row>>, ranges: seq<ValueRange>)
    requires WellFormed(sheets) && |ranges| == |sheets|
    requires forall i :: 0 <= i < |sheets| ==> ParseRangeLabel(ranges[i].range) == Some(sheets[i].0)
    ensures |ApplyBatch(sheets, ranges)| == |sheets|
    ensures forall i :: 0 <= i < |sheets| ==> ApplyBatch(sheets, ranges)[i] == (sheets[i].0, ranges[i].values)
  {
    BatchPrefix(sheets, ranges);
  }

  /** A last range labelled `name` assigns its values to `name`. */
  lemma BatchStep(sheets: OMap<seq<Row>>, ranges: seq<ValueRange>, name: string)
    requires ranges != [] && ParseRangeLabel(ranges[|ranges| - 1].range) == Some(name)
    ensures ApplyBatch(sheets, ranges) == Assign(ApplyBatch(sheets, ranges[..|ranges| - 1]), name, ranges[|ranges| - 1].values)
  {
  }

  /** The same for the first ranges of such an answer: the sheets they name are filled, the rest untouched. */
  lemma {:induction false} BatchPrefix(sheets: OMap<seq<Row>>, ranges: seq<ValueRange>)
    requires WellFormed(sheets) && |ranges| <= |sheets|
    requires forall i {:trigger ParseRangeLabel(ranges[i].range)} :: 0 <= i < |ranges| ==> ParseRangeLabel(ranges[i].range) == Some(sheets[i].0)
    ensures WellFormed(ApplyBatch(sheets, ranges))
    ensures |ApplyBatch(sheets, ranges)| == |sheets|
    ensures forall i :: 0 <= i < |sheets| ==>
      ApplyBatch(sheets, ranges)[i] == (sheets[i].0, if i < |ranges| then ranges[i].values else sheets[i].1)
    decreases |ranges|
  {
    if ranges != [] {
      var n := |ranges|;
      var init := ranges[..n - 1];
      LabelsOfPrefix(sheets, ranges);
      BatchPrefix(sheets, init);
      BatchStep(sheets, ranges, sheets[n - 1].0);
      var before := ApplyBatch(sheets, init);
      AssignLast(before, n - 1, ranges[n - 1].values);
      FillNext(sheets, ranges, before, ApplyBatch(sheets, ranges));
    }
  }

  lemma LabelsOfPrefix(sheets: OMap<seq<Row>>, ranges: seq<ValueRange>)
    requires 0 < |ranges| <= |sheets|
    requires forall i {:trigger ParseRangeLabel(ranges[i].range)} :: 0 <= i < |ranges| ==> ParseRangeLabel(ranges[i].range) == Some(sheets[i].0)
    ensures forall i :: 0 <= i < |ranges| - 1 ==> ParseRangeLabel(ranges[..|ranges| - 1][i].range) == Some(sheets[i].0)
  {
    forall i | 0 <= i < |ranges| - 1
      ensures ParseRangeLabel(ranges[..|ranges| - 1][i].range) == Some(sheets[i].0)
    {
      assert ranges[..|ranges| - 1][i] == ranges[i];
    }
  }

  /** Assigning to the key of entry `i` of a well-formed map replaces that entry and keeps the map well-formed. */
  lemma AssignLast(before: OMap<seq<Row>>, i: nat, v: seq<Row>)
    requires WellFormed(before) && i < |before|
    ensures Assign(before, before[i].0, v) == before[i := (before[i].0, v)]
    ensures WellFormed(Assign(before, before[i].0, v))
  {
    AssignAt(before, i, v);
    AssignWellFormed(before, before[i].0, v);
  }

  /** Replacing the last range's sheet by its values extends a filled prefix by one. */
  lemma FillNext(sheets: OMap<seq<Row>>, ranges: seq<ValueRange>, before: OMap<seq<Row>>, after: OMap<seq<Row>>)
    requires 0 < |ranges| <= |sheets| && |before| == |sheets|
    requires forall i :: 0 <= i < |sheets| ==>
      before[i] == (sheets[i].0, if i < |ranges| - 1 then ranges[i].values else sheets[i].1)
    requires after == before[|ranges| - 1 := (sheets[|ranges| - 1].0, ranges[|ranges| - 1].values)]
    ensures |after| == |sheets|
    ensures forall i :: 0 <= i < |sheets| ==>
      after[i] == (sheets[i].0, if i < |ranges| then ranges[i].values else sheets[i].1)
  {
    var n := |ranges|;
    forall i | 0 <= i < |sheets|
      ensures after[i] == (sheets[i].0, if i < n then ranges[i].values else sheets[i].1)
    {
      if i != n - 1 {
        assert after[i] == before[i];
      }
    }
  }

  /** The per-sheet loop: each sheet's values become the answer for its own range. */
  function PerSheet(remote: Remote, spreadsheetId: string, sheets: OMap<seq<Row>>, range: string): (r: OMap<seq<Row>>)
    ensures |r| == |sheets|
    decreases |sheets|
  {
    if sheets == [] then []
    else
      var name := sheets[|sheets| - 1].0;
      PerSheet(remote, spreadsheetId, sheets[..|sheets| - 1], range)
        + [(name, remote.values(spreadsheetId, name + "!" + range))]
  }

  /** The requests of the per-sheet loop, one per sheet, in key order. */
  function PerSheetRequests(spreadsheetId: string, sheets: OMap<seq<Row>>, range: string): (r: seq<Request>)
    ensures |r| == |sheets|
    decreases |sheets|
  {
    if sheets == [] then []
    else
      PerSheetRequests(spreadsheetId, sheets[..|sheets| - 1], range)
        + [GetValues(spreadsheetId, sheets[|sheets| - 1].0 + "!" + range)]
  }

  /** The per-sheet loop keeps the keys, in order. */
  lemma PerSheetKeys(remote: Remote, spreadsheetId: string, sheets: OMap<seq<Row>>, range: string)
    ensures Keys(PerSheet(remote, spreadsheetId, sheets, range)) == Keys(sheets)
  {
    var filled := PerSheet(remote, spreadsheetId, sheets, range);
    PerSheetNames(remote, spreadsheetId, sheets, range);
    assert forall i :: 0 <= i < |sheets| ==> Keys(filled)[i] == Keys(sheets)[i];
  }

  /** Entry by entry, the per-sheet loop keeps each sheet's name where it stands. */
  lemma {:induction false} PerSheetNames(remote: Remote, spreadsheetId: string, sheets: OMap<seq<Row>>, range: string)
    ensures forall i :: 0 <= i < |sheets| ==> PerSheet(remote, spreadsheetId, sheets, range)[i].0 == sheets[i].0
    decreases |sheets|
  {
    if sheets != [] {
      var init := sheets[..|sheets| - 1];
      PerSheetNames(remote, spreadsheetId, init, range);
      assert forall i :: 0 <= i < |init| ==> init[i] == sheets[i];
    }
  }

  /** The per-sheet loop gives each sheet the rows of its own `name!range`. */
  lemma {:induction false} PerSheetValues(remote: Remote, spreadsheetId: string, sheets: OMap<seq<Row>>, range: string)
    ensures forall i :: 0 <= i < |sheets| ==>
      PerSheet(remote, spreadsheetId, sheets, range)[i].1 == remote.values(spreadsheetId, sheets[i].0 + "!" + range)
    decreases |sheets|
  {
    if sheets != [] {
      var init := sheets[..|sheets| - 1];
      PerSheetValues(remote, spreadsheetId, init, range);
      assert forall i :: 0 <= i < |init| ==> init[i] == sheets[i];
    }
  }

  /** The per-sheet loop asks for each sheet's own range, once, in key order. */
  lemma {:induction false} PerSheetRequestsAt(spreadsheetId: string, sheets: OMap<seq<Row>>, range: string)
    ensures forall i :: 0 <= i < |sheets| ==>
      PerSheetRequests(spreadsheetId, sheets, range)[i] == GetValues(spreadsheetId, sheets[i].0 + "!" + range)
    decreases |sheets|
  {
    if sheets != [] {
      var init := sheets[..|sheets| - 1];
      PerSheetRequestsAt(spreadsheetId, init, range);
      assert forall i :: 0 <= i < |init| ==> init[i] == sheets[i];
    }
  }

  // ---------------------------------------------------------------------------
  // loadSheets

  /** The whole fetch: its result and the requests it sends, in order. */
  function Load(mapping: Mapping, mappingId: string, remote: Remote): (LoadResult, seq<Request>)
  {
    var found := Get(mapping, mappingId);
    if found.Some? && HasUrl(found.value) then Fetch(found.value, remote)
    else (InvalidConfiguration(InvalidMappingMessage(mappingId)), [])
  }

  /** The fetch for an entry that has a `url`. */
  function Fetch(entry: Entry, remote: Remote): (LoadResult, seq<Request>)
  {
    var spreadsheetId := GetSpreadsheetId(ToPhpString(Property(entry, "url")));
    var spreadsheet := remote.spreadsheet(spreadsheetId);
    var kept := Retained(spreadsheet.sheetTitles);
    var filled := FillValues(remote, spreadsheetId, kept, DataRange(entry), UseBatch(entry, |kept|));
    (Loaded(spreadsheet.title, filled.0), [GetSpreadsheet(spreadsheetId)] + filled.1)
  }

  /** The values of the kept sheets, by one batched request or one request per sheet. */
  function FillValues(remote: Remote, spreadsheetId: string, kept: OMap<seq<Row>>, range: string, batch: bool)
    : (OMap<seq<Row>>, seq<Request>)
  {
    if batch then
      var ranges := BatchRanges(Keys(kept), range);
      (ApplyBatch(kept, remote.batch(spreadsheetId, ranges)), [BatchGetValues(spreadsheetId, ranges)])
    else
      (PerSheet(remote, spreadsheetId, kept, range), PerSheetRequests(spreadsheetId, kept, range))
  }

  /** `GoogleApiService::loadSheets($mappingId)`. */
  method LoadSheets(mapping: Mapping, mappingId: string, remote: Remote) returns (result: LoadResult, requests: seq<Request>)
    ensures (result, requests) == Load(mapping, mappingId, remote)
  {
    var found := Get(mapping, mappingId);
    if !(found.Some? && HasUrl(found.value)) {
      return InvalidConfiguration(InvalidMappingMessage(mappingId)), [];
    }
    var entry := found.value;
    var spreadsheetId := GetSpreadsheetId(ToPhpString(Property(entry, "url")));
    var spreadsheet := remote.spreadsheet(spreadsheetId);
    var sheets := KeepSheets(spreadsheet.sheetTitles);

    var startingFromRow := Property(entry, "startingFromRow");
    var startingRow := if IsSet(startingFromRow) then IntCast(startingFromRow) else 1;
    var range := "A" + IntToDecimal(startingRow) + ":ZZ";
    assert range == DataRange(entry);

    var batchGet := Property(entry, "batchGet");
    var batch := |sheets| > 1 && IsSet(batchGet) && Truthy(batchGet);
    assert batch == UseBatch(entry, |sheets|);
    var fetched;
    sheets, fetched := FetchValues(remote, spreadsheetId, sheets, range, batch);
    result, requests := Loaded(spreadsheet.title, sheets), [GetSpreadsheet(spreadsheetId)] + fetched;
  }

  /** The two ways `loadSheets` fills the values. */
  method FetchValues(remote: Remote, spreadsheetId: string, kept: OMap<seq<Row>>, range: string, batch: bool)
      returns (sheets: OMap<seq<Row>>, requests: seq<Request>)
    ensures (sheets, requests) == FillValues(remote, spreadsheetId, kept, range, batch)
  {
    if batch {
      var ranges := BatchRanges(Keys(kept), range);
      var batchResult := remote.batch(spreadsheetId, ranges);
      requests := [BatchGetValues(spreadsheetId, ranges)];
      sheets := FillFromBatch(kept, batchResult);
    } else {
      sheets, requests := FillEach(remote, spreadsheetId, kept, range);
    }
  }

  /** The first loop: one key with no rows per title not ending in an underscore. */
  method KeepSheets(titles: seq<string>) returns (sheets: OMap<seq<Row>>)
    ensures sheets == Retained(titles)
  {
    sheets := [];
    for i := 0 to |titles|
      invariant sheets == Retained(titles[..i])
    {
      assert titles[..i + 1][..i] == titles[..i];
      if EndsInUnderscore(titles[i]) {
        continue;
      }
      sheets := Assign(sheets, titles[i], []);
    }
    assert titles[..|titles|] == titles;
  }

  /** The batch loop over the value ranges of the answer. */
  method FillFromBatch(kept: OMap<seq<Row>>, batchResult: seq<ValueRange>) returns (sheets: OMap<seq<Row>>)
    ensures sheets == ApplyBatch(kept, batchResult)
  {
    sheets := kept;
    for i := 0 to |batchResult|
      invariant sheets == ApplyBatch(kept, batchResult[..i])
    {
      assert batchResult[..i + 1][..i] == batchResult[..i];
      var name := ParseRangeLabel(batchResult[i].range);
      if name.Some? {
        sheets := Assign(sheets, name.value, batchResult[i].values);
      }
    }
    assert batchResult[..|batchResult|] == batchResult;
  }

  /** The by-reference loop: one request per sheet, its answer stored in place. */
  method FillEach(remote: Remote, spreadsheetId: string, kept: OMap<seq<Row>>, range: string)
      returns (sheets: OMap<seq<Row>>, requests: seq<Request>)
    ensures sheets == PerSheet(remote, spreadsheetId, kept, range)
    ensures requests == PerSheetRequests(spreadsheetId, kept, range)
  {
    sheets, requests := kept, [];
    for i := 0 to |sheets|
      invariant |sheets| == |kept| && sheets[i..] == kept[i..]
      invariant sheets[..i] == PerSheet(remote, spreadsheetId, kept[..i], range)
      invariant requests == PerSheetRequests(spreadsheetId, kept[..i], range)
    {
      assert kept[..i + 1][..i] == kept[..i];
      assert sheets[i] == kept[i];
      var sheetName := sheets[i].0;
      var valueRange := remote.values(spreadsheetId, sheetName + "!" + range);
      requests := requests + [GetValues(spreadsheetId, sheetName + "!" + range)];
      sheets := sheets[i := (sheetName, valueRange)];
      assert sheets[..i + 1] == sheets[..i] + [sheets[i]];
    }
    assert kept[..|kept|] == kept && sheets[..|sheets|] == sheets;
  }

  /**
   * The fetch fails, with nothing sent, exactly when the mapping id is
   * absent or its entry has no `url`; otherwise it fetches that entry.
   */
  lemma LoadFailsWithoutUrl(mapping: Mapping, mappingId: string, remote: Remote)
    ensures var (result, requests) := Load(mapping, mappingId, remote);
      && (result.InvalidConfiguration? <==>
            !(mappingId in Keys(mapping) && HasUrl(Get(mapping, mappingId).value)))
      && (result.InvalidConfiguration? ==>
            result.message == InvalidMappingMessage(mappingId) && requests == [])
      && (result.Loaded? ==> (result, requests) == Fetch(Get(mapping, mappingId).value, remote))
  {
  }

  /**
   * A fetch first reads the document the `url` names, and its title is the
   * title returned. The batched request is sent exactly when more than one
   * sheet is kept and `batchGet` is truthy; it is then the only other
   * request, and it lists `name!range` for every kept sheet in key order.
   */
  lemma FetchBatched(entry: Entry, remote: Remote)
    ensures var spreadsheetId := GetSpreadsheetId(ToPhpString(Property(entry, "url")));
      var spreadsheet := remote.spreadsheet(spreadsheetId);
      var kept := Retained(spreadsheet.sheetTitles);
      var (result, requests) := Fetch(entry, remote);
      && result.Loaded? && result.title == spreadsheet.title
      && requests[0] == GetSpreadsheet(spreadsheetId)
      && (UseBatch(entry, |kept|) ==>
            && |requests| == 2 && requests[1].BatchGetValues? && requests[1].spreadsheetId == spreadsheetId
            && |requests[1].ranges| == |kept|
            && forall i :: 0 <= i < |kept| ==> requests[1].ranges[i] == kept[i].0 + "!" + DataRange(entry))
  {
  }

  /**
   * Without the batched request, one request per kept sheet follows the
   * document's, for that sheet's own range, and the result holds exactly
   * the kept sheets, in order, each with the answer to its request.
   */
  lemma FetchEachSheet(entry: Entry, remote: Remote)
    ensures var spreadsheetId := GetSpreadsheetId(ToPhpString(Property(entry, "url")));
      var spreadsheet := remote.spreadsheet(spreadsheetId);
      var kept := Retained(spreadsheet.sheetTitles);
      var range := DataRange(entry);
      var (result, requests) := Fetch(entry, remote);
      !UseBatch(entry, |kept|) ==>
        && |requests| == |kept| + 1
        && Keys(result.sheets) == KeptTitles(spreadsheet.sheetTitles)
        && forall i :: 0 <= i < |kept| ==>
             && requests[i + 1] == GetValues(spreadsheetId, kept[i].0 + "!" + range)
             && result.sheets[i].1 == remote.values(spreadsheetId, kept[i].0 + "!" + range)
  {
    var spreadsheetId := GetSpreadsheetId(ToPhpString(Property(entry, "url")));
    var titles := remote.spreadsheet(spreadsheetId).sheetTitles;
    var kept := Retained(titles);
    var range := DataRange(entry);
    RetainedKeys(titles);
    PerSheetKeys(remote, spreadsheetId, kept, range);
    PerSheetValues(remote, spreadsheetId, kept, range);
    PerSheetRequestsAt(spreadsheetId, kept, range);
  }

  // ---------------------------------------------------------------------------
  // getSpreadsheetId

  const Marker: string := "spreadsheets/d/"

  predicate IsIdChar(c: char)
  {
    ('a' <= c <= 'z') || ('A' <= c <= 'Z') || ('0' <= c <= '9') || c == '-'
  }

  /** The marker starts at `q` and at least one id character follows it. */
  predicate MarkerAt(line: string, q: nat)
  {
    q + |Marker| < |line| && line[q..q + |Marker|] == Marker && IsIdChar(line[q + |Marker|])
  }

  /** The last position below `n` where `MarkerAt` holds: where the greedy `.*` stops. */
  function LastMarkerBelow(line: string, n: nat): (r: Option<nat>)
    requires n <= |line|
    ensures r.Some? ==> r.value < n && MarkerAt(line, r.value) && forall q: nat :: r.value < q < n ==> !MarkerAt(line, q)
    ensures r.None? ==> forall q: nat :: q < n ==> !MarkerAt(line, q)
  {
    if n == 0 then None
    else if MarkerAt(line, n - 1) then Some(n - 1)
    else LastMarkerBelow(line, n - 1)
  }

  /** The longest prefix of id characters: what `([a-zA-Z0-9\-]+)` captures. */
  function IdRun(s: string): (r: string)
    ensures |r| <= |s| && r == s[..|r|]
    ensures forall k :: 0 <= k < |r| ==> IsIdChar(r[k])
    ensures |r| < |s| ==> !IsIdChar(s[|r|])
  {
    if s != [] && IsIdChar(s[0]) then [s[0]] + IdRun(s[1..]) else []
  }

  /** One line without its newline: replaced by the captured id when the pattern matches. */
  function RewriteLine(line: string): string
  {
    match LastMarkerBelow(line, |line|)
    case None => line
    case Some(q) => IdRun(line[q + |Marker|..])
  }

  /** The length of the first line of `s`: the index of its first newline, or its length. */
  function LineLength(s: string): (n: nat)
    ensures n <= |s| && (n < |s| ==> s[n] == '\n')
    ensures forall k :: 0 <= k < n ==> s[k] != '\n'
  {
    if s == [] || s[0] == '\n' then 0 else 1 + LineLength(s[1..])
  }

  /**
   * `preg_replace('~.*spreadsheets/d/([a-zA-Z0-9\-]+).*~', '$1', $url)`:
   * `.` stops at a newline, so each line is rewritten on its own and the
   * newlines stay.
   */
  function GetSpreadsheetId(url: string): string
    decreases |url|
  {
    var n := LineLength(url);
    if n == |url| then RewriteLine(url)
    else RewriteLine(url[..n]) + "\n" + GetSpreadsheetId(url[n + 1..])
  }

  /** An id run followed by a character outside the id class is captured whole. */
  lemma {:induction false} IdRunOf(id: string, rest: string)
    requires forall k :: 0 <= k < |id| ==> IsIdChar(id[k])
    requires rest == [] || !IsIdChar(rest[0])
    ensures IdRun(id + rest) == id
  {
    if id != [] {
      assert (id + rest)[1..] == id[1..] + rest;
      IdRunOf(id[1..], rest);
    }
  }

  /** A string with no newline is a single line. */
  lemma OneLine(url: string)
    requires forall k :: 0 <= k < |url| ==> url[k] != '\n'
    ensures GetSpreadsheetId(url) == RewriteLine(url)
  {
  }

  /** The last marker of a line is the one `LastMarkerBelow` finds. */
  lemma LastMarkerIs(line: string, p: nat)
    requires MarkerAt(line, p) && forall q: nat :: p < q ==> !MarkerAt(line, q)
    ensures LastMarkerBelow(line, |line|) == Some(p)
  {
  }

  /**
   * On a one-line `url`, the id is the run of id characters after the last
   * marker that is followed by one.
   */
  lemma SpreadsheetIdOfLine(url: string, p: nat)
    requires forall k :: 0 <= k < |url| ==> url[k] != '\n'
    requires MarkerAt(url, p) && forall q: nat :: p < q ==> !MarkerAt(url, q)
    ensures GetSpreadsheetId(url) == IdRun(url[p + |Marker|..])
    ensures GetSpreadsheetId(url) != [] && url[p + |Marker|..][..|GetSpreadsheetId(url)|] == GetSpreadsheetId(url)
  {
    OneLine(url);
    LastMarkerIs(url, p);
  }

  /**
   * A one-line `url` whose last marker is followed by `id`, up to the next
   * character outside the id class, gives `id`.
   */
  lemma SpreadsheetIdOfUrl(prefix: string, id: string, rest: string)
    requires id != [] && forall k :: 0 <= k < |id| ==> IsIdChar(id[k])
    requires rest == [] || !IsIdChar(rest[0])
    requires forall k :: 0 <= k < |prefix + Marker + id + rest| ==> (prefix + Marker + id + rest)[k] != '\n'
    requires forall q: nat :: |prefix| < q ==> !MarkerAt(prefix + Marker + id + rest, q)
    ensures GetSpreadsheetId(prefix + Marker + id + rest) == id
  {
    var url := prefix + Marker + id + rest;
    var p := |prefix|;
    var tail := id + rest;
    assert url == prefix + Marker + tail;
    assert url[p..p + |Marker|] == Marker;
    assert url[p + |Marker|..] == tail;
    assert url[p + |Marker|] == id[0];
    SpreadsheetIdOfLine(url, p);
    IdRunOf(id, rest);
  }

  /** A marker in the first `n` characters is a marker of the whole string. */
  lemma MarkerInPrefix(url: string, n: nat, q: nat)
    requires n <= |url| && MarkerAt(url[..n], q)
    ensures MarkerAt(url, q)
  {
    assert url[..n][q..q + |Marker|] == url[q..q + |Marker|];
  }

  /** A marker after the first `d` characters is a marker of the whole string. */
  lemma MarkerInSuffix(url: string, d: nat, q: nat)
    requires d <= |url| && MarkerAt(url[d..], q)
    ensures MarkerAt(url, d + q)
  {
    assert url[d..][q..q + |Marker|] == url[d + q..d + q + |Marker|];
  }

  ghost predicate NoMarker(url: string)
  {
    forall q: nat :: !MarkerAt(url, q)
  }

  lemma NoMarkerInPrefix(url: string, n: nat)
    requires n <= |url| && NoMarker(url)
    ensures NoMarker(url[..n])
  {
    forall q: nat ensures !MarkerAt(url[..n], q) {
      if MarkerAt(url[..n], q) {
        MarkerInPrefix(url, n, q);
      }
    }
  }

  lemma NoMarkerInSuffix(url: string, d: nat)
    requires d <= |url| && NoMarker(url)
    ensures NoMarker(url[d..])
  {
    forall q: nat ensures !MarkerAt(url[d..], q) {
      if MarkerAt(url[d..], q) {
        MarkerInSuffix(url, d, q);
      }
    }
  }

  lemma LineWithoutMarker(line: string)
    requires NoMarker(line)
    ensures RewriteLine(line) == line
  {
  }

  /** Without a marker, the first line is kept as it is and the lines after it have no marker either. */
  lemma FirstLineWithoutMarker(url: string, n: nat)
    requires NoMarker(url) && n == LineLength(url)
    ensures RewriteLine(url[..n]) == url[..n]
    ensures n < |url| ==> NoMarker(url[n + 1..])
  {
    NoMarkerInPrefix(url, n);
    LineWithoutMarker(url[..n]);
    if n < |url| {
      NoMarkerInSuffix(url, n + 1);
    }
  }

  /** A `url` in which the marker never precedes an id character comes back unchanged. */
  lemma {:induction false} SpreadsheetIdWithoutMarker(url: string)
    requires NoMarker(url)
    ensures GetSpreadsheetId(url) == url
    decreases |url|
  {
    var n := LineLength(url);
    FirstLineWithoutMarker(url, n);
    if n < |url| {
      SpreadsheetIdWithoutMarker(url[n + 1..]);
      assert url == url[..n] + "\n" + url[n + 1..];
    } else {
      assert url[..n] == url;
    }
  }
}
