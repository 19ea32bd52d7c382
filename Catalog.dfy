/**
 * The parsed mapping file: one entry per mapping name, in file order. An
 * entry is normally a list of properties (`url`, `startingFromRow`,
 * `batchGet`); a name mapped to a bare scalar is kept as such, because PHP
 * treats an offset into it differently.
 */
module Catalog {
  import opened OrderedMaps
  import opened PhpValues

  datatype Entry = Leaf(value: Scalar) | Props(props: OMap<Scalar>)

  type Mapping = OMap<Entry>

  /** `$mapping[$name]` is set: the name is present and not mapped to null. */
  predicate EntryIsSet(mapping: Mapping, name: string)
  {
    match Get(mapping, name)
    case None => false
    case Some(e) => e != Leaf(Null)
  }

  /** `$entry[$key]` as a value: null when the key is missing or the entry has no properties. */
  function Property(e: Entry, key: string): (v: Scalar)
    ensures e.Props? && key in Keys(e.props) ==> Some(v) == Get(e.props, key)
    ensures !(e.Props? && key in Keys(e.props)) ==> v == Null
  {
    match e
    case Leaf(_) => Null
    case Props(props) =>
      match Get(props, key)
      case Some(v) => v
      case None => Null
  }

  /** `isset($entry['url'])`. */
  predicate HasUrl(e: Entry)
  {
    IsSet(Property(e, "url"))
  }

  /** One row of the table of known mappings: a name and its `url` cell. */
  datatype ListingRow = ListingRow(name: string, url: Scalar)

  /** `[$mappingName, $mappingProperties['url']]`. */
  function RowOf(entry: (string, Entry)): ListingRow
  {
    ListingRow(entry.0, Property(entry.1, "url"))
  }

  /** Every entry of the mapping, each with its `url` cell (null when it has none). */
  function AllRows(mapping: Mapping): (rows: seq<ListingRow>)
    ensures |rows| == |mapping|
    decreases |mapping|
  {
    if mapping == [] then []
    else
      var last := mapping[|mapping| - 1];
      AllRows(mapping[..|mapping| - 1]) + [RowOf(last)]
  }

  /** The entries of the mapping that have a `url`, in mapping order. */
  function UrlRows(mapping: Mapping): (rows: seq<ListingRow>)
    ensures |rows| <= |mapping|
    decreases |mapping|
  {
    if mapping == [] then []
    else
      var last := mapping[|mapping| - 1];
      var rows := UrlRows(mapping[..|mapping| - 1]);
      if HasUrl(last.1) then rows + [RowOf(last)] else rows
  }

  /** The rows of a listing whose `url` cell is set. */
  function SetRows(rows: seq<ListingRow>): seq<ListingRow>
  {
    if rows == [] then []
    else
      var last := rows[|rows| - 1];
      SetRows(rows[..|rows| - 1]) + (if IsSet(last.url) then [last] else [])
  }

  /** The unfiltered listing has one row per entry, each naming that entry and holding its `url` cell. */
  lemma {:induction false} AllRowsAt(mapping: Mapping, i: nat)
    requires i < |mapping|
    ensures AllRows(mapping)[i] == RowOf(mapping[i])
    decreases |mapping|
  {
    if i < |mapping| - 1 {
      var init := mapping[..|mapping| - 1];
      assert init[i] == mapping[i];
      AllRowsAt(init, i);
    }
  }

  /**
   * The filtered listing is the unfiltered one with the rows whose `url`
   * cell is null removed: the two listings agree on every mapping that has
   * a `url`.
   */
  lemma {:induction false} UrlRowsAreSetRows(mapping: Mapping)
    ensures UrlRows(mapping) == SetRows(AllRows(mapping))
    decreases |mapping|
  {
    if mapping != [] {
      var init := mapping[..|mapping| - 1];
      UrlRowsAreSetRows(init);
      var all := AllRows(mapping);
      assert all[..|all| - 1] == AllRows(init);
    }
  }

  /**
   * A row is in the filtered listing exactly when some entry has that name,
   * has a `url`, and that `url` is the row's cell.
   */
  lemma UrlRowsMembers(mapping: Mapping, row: ListingRow)
    ensures row in UrlRows(mapping) <==>
      exists i :: 0 <= i < |mapping| && HasUrl(mapping[i].1) && RowOf(mapping[i]) == row
  {
    if row in UrlRows(mapping) {
      UrlRowsFromEntry(mapping, row);
    }
    if exists i :: 0 <= i < |mapping| && HasUrl(mapping[i].1) && RowOf(mapping[i]) == row {
      var i :| 0 <= i < |mapping| && HasUrl(mapping[i].1) && RowOf(mapping[i]) == row;
      UrlRowsHasEntry(mapping, i);
    }
  }

  /** Every row of the filtered listing comes from an entry with a `url`. */
  lemma {:induction false} UrlRowsFromEntry(mapping: Mapping, row: ListingRow)
    requires row in UrlRows(mapping)
    ensures exists i :: 0 <= i < |mapping| && HasUrl(mapping[i].1) && RowOf(mapping[i]) == row
    decreases |mapping|
  {
    var n := |mapping| - 1;
    var init := mapping[..n];
    if row in UrlRows(init) {
      UrlRowsFromEntry(init, row);
      var i :| 0 <= i < |init| && HasUrl(init[i].1) && RowOf(init[i]) == row;
      assert init[i] == mapping[i];
    } else {
      assert HasUrl(mapping[n].1) && RowOf(mapping[n]) == row;
    }
  }

  /** Every entry with a `url` has its row in the filtered listing. */
  lemma {:induction false} UrlRowsHasEntry(mapping: Mapping, i: nat)
    requires i < |mapping| && HasUrl(mapping[i].1)
    ensures RowOf(mapping[i]) in UrlRows(mapping)
    decreases |mapping|
  {
    var n := |mapping| - 1;
    if i < n {
      var init := mapping[..n];
      assert init[i] == mapping[i];
      UrlRowsHasEntry(init, i);
    }
  }

  /** Every row of the filtered listing has a set `url`. */
  lemma {:induction false} UrlRowsAreSet(mapping: Mapping)
    ensures forall k :: 0 <= k < |UrlRows(mapping)| ==> IsSet(UrlRows(mapping)[k].url)
    decreases |mapping|
  {
    if mapping != [] {
      UrlRowsAreSet(mapping[..|mapping| - 1]);
    }
  }
}
