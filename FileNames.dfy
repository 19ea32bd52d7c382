/**
 * The file names the capture-lookups command writes: the candidate name
 * `<document>-<sheet>.csv`, the test for risky characters, and the safe
 * alternative derived from a transliteration of `<document>-<sheet>`.
 * The two command variants differ only in how the safe alternative is
 * cleaned up, which `NameRule` selects.
 */
module FileNames {

  const Csv: string := ".csv"

  /** The characters `~[^0-9a-z_\-\.\ ]~i` does not match. */
  predicate IsSafeChar(c: char)
  {
    ('0' <= c <= '9') || ('a' <= c <= 'z') || ('A' <= c <= 'Z') || c == '_' || c == '-' || c == '.' || c == ' '
  }

  /** `preg_match('~[^0-9a-z_\-\.\ ]~i', $s)`: some character of `s` is outside the safe set. */
  predicate IsRisky(s: string)
  {
    exists i :: 0 <= i < |s| && !IsSafeChar(s[i])
  }

  predicate EndsWith(s: string, suffix: string)
  {
    |suffix| <= |s| && s[|s| - |suffix|..] == suffix
  }

  /** The file name first tried for a sheet. */
  function Candidate(document: string, sheet: string): string
  {
    document + "-" + sheet + Csv
  }

  /** `preg_replace('~[^0-9a-z_\-\.\ ]~i', '', $s)`: every risky character removed. */
  function Strip(s: string): (r: string)
    ensures !IsRisky(r)
    ensures !IsRisky(s) ==> r == s
  {
    if s == [] then []
    else
      var rest := Strip(s[1..]);
      assert !IsRisky(s) ==> !IsRisky(s[1..]) by {
        if !IsRisky(s) {
          forall i | 0 <= i < |s[1..]| ensures IsSafeChar(s[1..][i]) {
            assert s[1..][i] == s[i + 1];
          }
        }
      }
      if IsSafeChar(s[0]) then
        var r := [s[0]] + rest;
        assert forall i :: 1 <= i < |r| ==> r[i] == rest[i - 1];
        assert !IsRisky(s) ==> r == [s[0]] + s[1..] == s;
        r
      else
        rest
  }

  /** Stripping distributes over concatenation. */
  lemma {:induction false} StripAppend(a: string, b: string)
    ensures Strip(a + b) == Strip(a) + Strip(b)
  {
    if a == [] {
      assert a + b == b;
    } else {
      var head := if IsSafeChar(a[0]) then [a[0]] else [];
      assert (a + b)[0] == a[0];
      assert (a + b)[1..] == a[1..] + b;
      StripAppend(a[1..], b);
      assert Strip(a + b) == head + Strip(a[1..] + b);
      assert Strip(a) == head + Strip(a[1..]);
    }
  }

  /** Stripping keeps every safe character, as often as it occurs, and no other. */
  lemma {:induction false} StripCounts(s: string, c: char)
    ensures multiset(Strip(s))[c] == if IsSafeChar(c) then multiset(s)[c] else 0
  {
    if s != [] {
      assert s == [s[0]] + s[1..];
      StripCounts(s[1..], c);
    }
  }

  /** The characters PHP's `trim` removes by default: " \t\n\r\0\x0B". */
  predicate IsTrimChar(c: char)
  {
    c == ' ' || c == '\t' || c == '\n' || c == '\r' || c == '\0' || c == '\U{B}'
  }

  function TrimLeft(s: string): (r: string)
    ensures |r| <= |s| && r == s[|s| - |r|..]
    ensures r == [] || !IsTrimChar(r[0])
    ensures forall i :: 0 <= i < |s| - |r| ==> IsTrimChar(s[i])
  {
    if s != [] && IsTrimChar(s[0]) then
      var r := TrimLeft(s[1..]);
      assert forall i :: 1 <= i < |s| ==> s[1..][i - 1] == s[i];
      r
    else s
  }

  function TrimRight(s: string): (r: string)
    ensures |r| <= |s| && r == s[..|r|]
    ensures r == [] || !IsTrimChar(r[|r| - 1])
    ensures forall i :: |r| <= i < |s| ==> IsTrimChar(s[i])
  {
    if s != [] && IsTrimChar(s[|s| - 1]) then TrimRight(s[..|s| - 1]) else s
  }

  /** PHP's `trim`: trim characters removed from both ends. */
  function PhpTrim(s: string): (r: string)
    ensures r == [] || (!IsTrimChar(r[0]) && !IsTrimChar(r[|r| - 1]))
    ensures forall i :: 0 <= i < |r| ==> r[i] in s
  {
    var l := TrimLeft(s);
    var r := TrimRight(l);
    forall i | 0 <= i < |r| ensures r[i] in s {
      assert r[i] == l[i];
      assert l[i] == s[|s| - |l| + i];
    }
    r
  }

  /** Some two neighbouring characters are both spaces. */
  predicate HasDoubleSpace(s: string)
  {
    exists i :: 0 <= i < |s| - 1 && s[i] == ' ' && s[i + 1] == ' '
  }

  /** `preg_replace('~\ {2,}~', ' ', $s)`: every run of spaces shortened to one space. */
  function Collapse(s: string): (r: string)
    ensures |r| <= |s|
    ensures forall i :: 0 <= i < |r| ==> r[i] in s
  {
    if |s| < 2 then s
    else if s[0] == ' ' && s[1] == ' ' then
      var r := Collapse(s[1..]);
      assert forall c :: c in s[1..] ==> c in s;
      r
    else
      var rest := Collapse(s[1..]);
      assert forall c :: c in s[1..] ==> c in s;
      assert forall i :: 1 <= i < |[s[0]] + rest| ==> ([s[0]] + rest)[i] == rest[i - 1];
      [s[0]] + rest
  }

  lemma {:induction false} CollapseFirst(s: string)
    requires s != []
    ensures Collapse(s) != [] && Collapse(s)[0] == s[0]
  {
    if |s| >= 2 && s[0] == ' ' && s[1] == ' ' {
      CollapseFirst(s[1..]);
    }
  }

  /** No two spaces are left next to each other. */
  lemma {:induction false} CollapseNoDoubleSpace(s: string)
    ensures !HasDoubleSpace(Collapse(s))
  {
    if |s| < 2 {
    } else if s[0] == ' ' && s[1] == ' ' {
      CollapseNoDoubleSpace(s[1..]);
    } else {
      var rest := Collapse(s[1..]);
      CollapseNoDoubleSpace(s[1..]);
      CollapseFirst(s[1..]);
      var r := [s[0]] + rest;
      forall i | 0 <= i < |r| - 1 ensures !(r[i] == ' ' && r[i + 1] == ' ') {
        if i > 0 {
          assert r[i] == rest[i - 1] && r[i + 1] == rest[i];
        }
      }
    }
  }

  /** A string without double spaces is left as it is. */
  lemma {:induction false} CollapseKeepsSingleSpaces(s: string)
    requires !HasDoubleSpace(s)
    ensures Collapse(s) == s
  {
    if |s| >= 2 {
      assert !(s[0] == ' ' && s[1] == ' ');
      assert !HasDoubleSpace(s[1..]) by {
        forall i | 0 <= i < |s[1..]| - 1 ensures !(s[1..][i] == ' ' && s[1..][i + 1] == ' ') {
          assert s[1..][i] == s[i + 1] && s[1..][i + 1] == s[i + 2];
        }
      }
      CollapseKeepsSingleSpaces(s[1..]);
      assert s == [s[0]] + s[1..];
    }
  }

  /** Collapsing stops at a character that is not a space. */
  lemma {:induction false} CollapseAppend(x: string, y: string)
    requires y != [] && y[0] != ' '
    ensures Collapse(x + y) == Collapse(x) + Collapse(y)
  {
    if x == [] {
      assert x + y == y;
    } else if |x| == 1 {
      assert (x + y)[1..] == y;
      assert (x + y)[1] == y[0];
    } else {
      assert (x + y)[1..] == x[1..] + y;
      assert (x + y)[0] == x[0] && (x + y)[1] == x[1];
      CollapseAppend(x[1..], y);
    }
  }

  /** A run of spaces alone collapses to one space. */
  lemma {:induction false} CollapseSpaceRun(sp: string)
    requires |sp| >= 1 && forall k :: 0 <= k < |sp| ==> sp[k] == ' '
    ensures Collapse(sp) == " "
  {
    if |sp| >= 2 {
      CollapseSpaceRun(sp[1..]);
    } else {
      assert sp == " ";
    }
  }

  /** A run of spaces after a non-space (or at the start) becomes one space. */
  lemma {:induction false} CollapseBeforeSpaces(x: string, sp: string)
    requires x == [] || x[|x| - 1] != ' '
    requires |sp| >= 1 && forall k :: 0 <= k < |sp| ==> sp[k] == ' '
    ensures Collapse(x + sp) == Collapse(x) + " "
  {
    var s := x + sp;
    if x == [] {
      assert s == sp;
      CollapseSpaceRun(sp);
    } else if |x| == 1 {
      assert s[0] == x[0] && s[1..] == sp;
      CollapseSpaceRun(sp);
    } else {
      assert s[0] == x[0] && s[1] == x[1] && s[1..] == x[1..] + sp;
      CollapseBeforeSpaces(x[1..], sp);
      if !(x[0] == ' ' && x[1] == ' ') {
        assert [x[0]] + (Collapse(x[1..]) + " ") == ([x[0]] + Collapse(x[1..])) + " ";
      }
    }
  }

  /**
   * A whole run of one or more spaces, between non-spaces or at either end,
   * is replaced by exactly one space, and each side collapses on its own.
   */
  lemma CollapseRunOfSpaces(x: string, sp: string, y: string)
    requires x == [] || x[|x| - 1] != ' '
    requires |sp| >= 1 && forall k :: 0 <= k < |sp| ==> sp[k] == ' '
    requires y == [] || y[0] != ' '
    ensures Collapse(x + sp + y) == Collapse(x) + " " + Collapse(y)
  {
    CollapseBeforeSpaces(x, sp);
    if y == [] {
      assert x + sp + y == x + sp;
      assert Collapse(x) + " " + Collapse(y) == Collapse(x) + " ";
    } else {
      CollapseAppend(x + sp, y);
    }
  }

  /** `s` with every space removed. */
  function RemoveSpaces(s: string): (r: string)
    ensures ' ' !in r
  {
    if s == [] then [] else (if s[0] == ' ' then [] else [s[0]]) + RemoveSpaces(s[1..])
  }

  lemma {:induction false} RemoveSpacesAppend(a: string, b: string)
    ensures RemoveSpaces(a + b) == RemoveSpaces(a) + RemoveSpaces(b)
  {
    if a == [] {
      assert a + b == b;
    } else {
      var head := if a[0] == ' ' then [] else [a[0]];
      var ab := a + b;
      assert ab[0] == a[0] && ab[1..] == a[1..] + b;
      assert RemoveSpaces(ab) == head + RemoveSpaces(ab[1..]);
      assert RemoveSpaces(a) == head + RemoveSpaces(a[1..]);
      RemoveSpacesAppend(a[1..], b);
      assert head + (RemoveSpaces(a[1..]) + RemoveSpaces(b)) == (head + RemoveSpaces(a[1..])) + RemoveSpaces(b);
    }
  }

  lemma {:induction false} RemoveSpacesOfSpaces(s: string)
    requires forall i :: 0 <= i < |s| ==> s[i] == ' '
    ensures RemoveSpaces(s) == []
  {
    if s != [] {
      RemoveSpacesOfSpaces(s[1..]);
    }
  }

  /** Collapsing removes spaces and nothing else. */
  lemma {:induction false} CollapseRemovesOnlySpaces(s: string)
    ensures RemoveSpaces(Collapse(s)) == RemoveSpaces(s)
  {
    if |s| >= 2 {
      CollapseRemovesOnlySpaces(s[1..]);
      if !(s[0] == ' ' && s[1] == ' ') {
        RemoveSpacesAppend([s[0]], Collapse(s[1..]));
      }
    }
  }

  lemma SafeSlice(s: string, i: nat, j: nat)
    requires !IsRisky(s) && i <= j <= |s|
    ensures !IsRisky(s[i..j])
  {
    forall k | 0 <= k < j - i ensures IsSafeChar(s[i..j][k]) {
      assert s[i..j][k] == s[i + k];
    }
  }

  lemma {:induction false} TrimLeftRemovesOnlySpaces(s: string)
    requires !IsRisky(s)
    ensures RemoveSpaces(TrimLeft(s)) == RemoveSpaces(s)
  {
    if s != [] && IsTrimChar(s[0]) {
      assert IsSafeChar(s[0]);
      SafeSlice(s, 1, |s|);
      TrimLeftRemovesOnlySpaces(s[1..]);
    }
  }

  /** A safe string that ends in a trim character ends in a space, before which it is still safe. */
  lemma SafeTrailingSpace(s: string)
    requires !IsRisky(s) && s != [] && IsTrimChar(s[|s| - 1])
    ensures s == s[..|s| - 1] + " " && !IsRisky(s[..|s| - 1])
  {
    assert IsSafeChar(s[|s| - 1]);
    SafeSlice(s, 0, |s| - 1);
  }

  lemma {:induction false} TrimRightRemovesOnlySpaces(s: string)
    requires !IsRisky(s)
    ensures RemoveSpaces(TrimRight(s)) == RemoveSpaces(s)
  {
    if s != [] && IsTrimChar(s[|s| - 1]) {
      var init := s[..|s| - 1];
      SafeTrailingSpace(s);
      TrimRightRemovesOnlySpaces(init);
      RemoveSpacesAppend(init, " ");
      assert RemoveSpaces(" ") == [];
    }
  }

  /** On a string of safe characters, trimming removes spaces and nothing else. */
  lemma TrimRemovesOnlySpaces(s: string)
    requires !IsRisky(s)
    ensures RemoveSpaces(PhpTrim(s)) == RemoveSpaces(s)
  {
    var l := TrimLeft(s);
    TrimLeftRemovesOnlySpaces(s);
    SafeSlice(s, |s| - |l|, |s|);
    TrimRightRemovesOnlySpaces(l);
  }

  /** Which clean-up the safe alternative gets: trimmed and space-collapsed, or plain. */
  datatype NameRule = Trimmed | Plain

  /**
   * The safe alternative offered for a risky name: the transliteration of
   * `<document>-<sheet>` stripped of risky characters, then (rule Trimmed)
   * trimmed, suffixed with ".csv" and space-collapsed, or (rule Plain)
   * only suffixed with ".csv".
   */
  function SafeName(rule: NameRule, translit: string -> string, document: string, sheet: string): string
  {
    var stripped := Strip(translit(document + "-" + sheet));
    match rule
    case Trimmed => Collapse(PhpTrim(stripped) + Csv)
    case Plain => stripped + Csv
  }

  lemma CollapseCsv()
    ensures Collapse(Csv) == Csv
  {
    assert Csv[1..] == "csv" && "csv"[1..] == "sv";
    assert Collapse("sv") == "sv";
    assert Collapse("csv") == "csv";
  }

  /** A safe string with ".csv" appended is still safe. */
  lemma SafeWithCsv(t: string)
    requires !IsRisky(t)
    ensures !IsRisky(t + Csv)
  {
    forall i | 0 <= i < |t + Csv| ensures IsSafeChar((t + Csv)[i]) {
      if i < |t| {
        assert (t + Csv)[i] == t[i];
      } else {
        assert (t + Csv)[i] == Csv[i - |t|];
      }
    }
  }

  lemma TrimmedNameIsSafe(stripped: string)
    requires !IsRisky(stripped)
    ensures var n := Collapse(PhpTrim(stripped) + Csv);
      !IsRisky(n) && EndsWith(n, Csv) && n[0] != ' ' && !HasDoubleSpace(n)
  {
    var t := PhpTrim(stripped);
    var n := Collapse(t + Csv);
    assert !IsRisky(t) by {
      forall i | 0 <= i < |t| ensures IsSafeChar(t[i]) {
        assert t[i] in stripped;
      }
    }
    SafeWithCsv(t);
    assert !IsRisky(n) by {
      forall i | 0 <= i < |n| ensures IsSafeChar(n[i]) {
        assert n[i] in t + Csv;
      }
    }
    CollapseCsv();
    CollapseAppend(t, Csv);
    assert n == Collapse(t) + Csv;
    assert n[|n| - |Csv|..] == Csv;
    CollapseFirst(t + Csv);
    assert (t + Csv)[0] != ' ';
    CollapseNoDoubleSpace(t + Csv);
  }

  lemma PlainNameIsSafe(stripped: string)
    requires !IsRisky(stripped)
    ensures !IsRisky(stripped + Csv) && EndsWith(stripped + Csv, Csv)
  {
    var n := stripped + Csv;
    forall i | 0 <= i < |n| ensures IsSafeChar(n[i]) {
      if i >= |stripped| { assert n[i] == Csv[i - |stripped|]; } else { assert n[i] == stripped[i]; }
    }
    assert n[|n| - |Csv|..] == Csv;
  }

  /**
   * Whatever the transliteration returns, the safe alternative passes the
   * risky-character test and ends in ".csv"; under the Trimmed rule it
   * also has no leading space and no two spaces in a row.
   */
  lemma SafeNameIsSafe(rule: NameRule, translit: string -> string, document: string, sheet: string)
    ensures !IsRisky(SafeName(rule, translit, document, sheet))
    ensures EndsWith(SafeName(rule, translit, document, sheet), Csv)
    ensures rule.Trimmed? ==> SafeName(rule, translit, document, sheet)[0] != ' '
    ensures rule.Trimmed? ==> !HasDoubleSpace(SafeName(rule, translit, document, sheet))
  {
    var stripped := Strip(translit(document + "-" + sheet));
    if rule.Trimmed? {
      TrimmedNameIsSafe(stripped);
    } else {
      PlainNameIsSafe(stripped);
    }
  }

  /**
   * The two rules keep the same characters and differ only in spaces:
   * trimming and collapsing never drop anything but a space.
   */
  lemma SafeNameRulesDifferOnlyInSpaces(translit: string -> string, document: string, sheet: string)
    ensures RemoveSpaces(SafeName(Trimmed, translit, document, sheet))
         == RemoveSpaces(SafeName(Plain, translit, document, sheet))
  {
    var stripped := Strip(translit(document + "-" + sheet));
    var t := PhpTrim(stripped);
    CollapseRemovesOnlySpaces(t + Csv);
    RemoveSpacesAppend(t, Csv);
    RemoveSpacesAppend(stripped, Csv);
    TrimRemovesOnlySpaces(stripped);
  }

  /** The sheet "Test Sheet1" of the document "Testing Public Sheet" is written under its own name. */
  lemma TestSheetNameIsSafe()
    ensures Candidate("Testing Public Sheet", "Test Sheet1") == "Testing Public Sheet-Test Sheet1.csv"
    ensures !IsRisky("Testing Public Sheet-Test Sheet1.csv")
  {
    var s := "Testing Public Sheet-Test Sheet1.csv";
    forall i | 0 <= i < |s| ensures IsSafeChar(s[i]) {
    }
  }
}
