/**
 * PHP arrays with string keys, as the command and the service use them:
 * an ordered list of (key, value) entries in insertion order. Assigning to
 * an existing key replaces its value in place; assigning to a new key
 * appends an entry at the end.
 */
module OrderedMaps {

  datatype Option<T> = None | Some(value: T)

  type OMap<V> = seq<(string, V)>

  /** The keys of an ordered map, in entry order (`array_keys`). */
  function Keys<V>(m: OMap<V>): (ks: seq<string>)
    ensures |ks| == |m|
    ensures forall i :: 0 <= i < |m| ==> ks[i] == m[i].0
  {
    if m == [] then [] else [m[0].0] + Keys(m[1..])
  }

  predicate Distinct(ks: seq<string>)
  {
    forall i, j :: 0 <= i < j < |ks| ==> ks[i] != ks[j]
  }

  /** Every key occurs once: the shape every PHP array has. */
  predicate WellFormed<V>(m: OMap<V>)
  {
    Distinct(Keys(m))
  }

  /** The position of the first entry with key `k`. */
  function IndexOf<V>(m: OMap<V>, k: string): (r: Option<nat>)
    ensures r.Some? ==> r.value < |m| && m[r.value].0 == k && forall j :: 0 <= j < r.value ==> m[j].0 != k
    ensures r.None? ==> forall j :: 0 <= j < |m| ==> m[j].0 != k
  {
    if m == [] then None
    else if m[0].0 == k then Some(0)
    else
      match IndexOf(m[1..], k)
      case Some(i) => Some(i + 1)
      case None => None
  }

  /** `$m[$k]`, or None when `$k` is not a key of `$m`. */
  function Get<V>(m: OMap<V>, k: string): (r: Option<V>)
    ensures r.Some? <==> k in Keys(m)
  {
    match IndexOf(m, k)
    case Some(i) => assert Keys(m)[i] == k; Some(m[i].1)
    case None => None
  }

  /** `$m[$k] = $v`. */
  function Assign<V>(m: OMap<V>, k: string, v: V): (r: OMap<V>)
    ensures Get(r, k) == Some(v)
    ensures forall k' :: k' != k ==> Get(r, k') == Get(m, k')
    ensures Keys(r) == if k in Keys(m) then Keys(m) else Keys(m) + [k]
  {
    match IndexOf(m, k)
    case Some(i) =>
      var r := m[i := (k, v)];
      IndexOfIs(r, k, i);
      ReplaceKeepsOthers(m, i, v);
      assert Keys(m)[i] == k;
      r
    case None =>
      var r := m + [(k, v)];
      IndexOfIs(r, k, |m|);
      AppendKeepsOthers(m, (k, v));
      r
  }

  /** Assigning keeps every key unique. */
  lemma AssignWellFormed<V>(m: OMap<V>, k: string, v: V)
    requires WellFormed(m)
    ensures WellFormed(Assign(m, k, v))
  {
    var ks := Keys(m);
    if k !in ks {
      var rs := ks + [k];
      forall i, j | 0 <= i < j < |rs| ensures rs[i] != rs[j] {
        if j == |ks| { assert rs[i] == ks[i]; assert ks[i] in ks; }
      }
    }
  }

  /** The first entry with key `k` is at `i`. */
  lemma IndexOfIs<V>(m: OMap<V>, k: string, i: nat)
    requires i < |m| && m[i].0 == k && forall j :: 0 <= j < i ==> m[j].0 != k
    ensures IndexOf(m, k) == Some(i)
  {
  }

  /** Replacing the value of the i-th entry moves no other key. */
  lemma ReplaceKeepsOthers<V>(m: OMap<V>, i: nat, v: V)
    requires i < |m|
    ensures forall k' :: k' != m[i].0 ==> IndexOf(m[i := (m[i].0, v)], k') == IndexOf(m, k')
  {
    forall k' | k' != m[i].0 ensures IndexOf(m[i := (m[i].0, v)], k') == IndexOf(m, k') {
      match IndexOf(m, k')
      case Some(j) => IndexOfIs(m[i := (m[i].0, v)], k', j);
      case None =>
    }
  }

  /** Appending an entry moves no other key. */
  lemma AppendKeepsOthers<V>(m: OMap<V>, e: (string, V))
    ensures forall k' :: k' != e.0 ==> IndexOf(m + [e], k') == IndexOf(m, k')
  {
    forall k' | k' != e.0 ensures IndexOf(m + [e], k') == IndexOf(m, k') {
      match IndexOf(m, k')
      case Some(j) => IndexOfIs(m + [e], k', j);
      case None =>
    }
  }

  /** In a well-formed map the first entry with a key is its only one. */
  lemma IndexOfAt<V>(m: OMap<V>, i: nat)
    requires WellFormed(m) && i < |m|
    ensures IndexOf(m, m[i].0) == Some(i)
  {
    IndexOfIs(m, m[i].0, i);
  }

  lemma GetAt<V>(m: OMap<V>, i: nat)
    requires WellFormed(m) && i < |m|
    ensures Get(m, m[i].0) == Some(m[i].1)
  {
    IndexOfAt(m, i);
  }

  /** Assigning to the key of the i-th entry replaces that entry where it stands. */
  lemma AssignAt<V>(m: OMap<V>, i: nat, v: V)
    requires WellFormed(m) && i < |m|
    ensures Assign(m, m[i].0, v) == m[i := (m[i].0, v)]
  {
    IndexOfAt(m, i);
  }

  /** Assigning to a new key appends its entry. */
  lemma AssignAppends<V>(m: OMap<V>, k: string, v: V)
    requires k !in Keys(m)
    ensures Assign(m, k, v) == m + [(k, v)]
  {
  }

  lemma KeysAppend<V>(m: OMap<V>, e: (string, V))
    ensures Keys(m + [e]) == Keys(m) + [e.0]
  {
    assert forall i :: 0 <= i < |m| ==> (m + [e])[i] == m[i];
  }
}
