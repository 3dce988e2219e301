/** The multi-select panel of src/components/FilterPanel.tsx. Every handler
    builds a new selection and hands it to `onChange`; the functions below
    return that new selection. */
module FilterPanel {

  import opened Firmen
  import opened Seqs

  /** `selected.filter(v => v !== value)`. */
  function Without(selected: seq<string>, value: string): seq<string>
  {
    Filter(selected, (v: string) => v != value)
  }

  /** `toggleOption`: removes every occurrence of a selected value, appends
      one that is not selected. */
  function Toggle(selected: seq<string>, value: string): seq<string>
  {
    if value in selected then Without(selected, value) else selected + [value]
  }

  /** `reset`: the empty selection. */
  function Reset(): seq<string>
  {
    []
  }

  /** `selectAll`: the selection becomes the option list itself. */
  function SelectAll(options: seq<string>): seq<string>
  {
    options
  }

  /** The checkbox of `opt` is ticked. */
  predicate Checked(selected: seq<string>, opt: string)
  {
    opt in selected
  }

  /** Whether a record is counted for `opt` in the panel labelled `panel`. */
  predicate Matches(panel: string, f: Firma, opt: string)
  {
    if panel == "Firmentyp" then f.typ == opt
    else if panel == "Region" then f.region == opt
    else if panel == "Branche" then f.branche == opt
    else false
  }

  /** The count shown beside `opt`: the records of the whole data set that
      match it, whatever is selected anywhere. */
  function Count(panel: string, daten: seq<Firma>, opt: string): nat
  {
    |Filter(daten, (f: Firma) => Matches(panel, f, opt))|
  }

  /** The column a panel governs. */
  function PanelKey(panel: string): Key
  {
    if panel == "Firmentyp" then Typ else if panel == "Region" then Region else Branche
  }

  lemma {:induction false} RemoveAllSpec(s: seq<string>, v: string)
    ensures v !in Without(s, v)
    ensures forall x :: x != v ==> (x in Without(s, v) <==> x in s)
    ensures forall x :: x != v ==> multiset(Without(s, v))[x] == multiset(s)[x]
    ensures IsSubsequence(Without(s, v), s)
  {
    var p := (x: string) => x != v;
    FilterMembers(s, p, v);
    forall x | x != v
      ensures (x in Without(s, v) <==> x in s)
      ensures multiset(Without(s, v))[x] == multiset(s)[x]
    {
      FilterMembers(s, p, x);
    }
    FilterIsSubsequence(s, p);
  }

  /** Toggling an unselected value appends it and changes nothing else;
      toggling a selected one removes all its occurrences and keeps every
      other value, as often as before and in the same order. Either way the
      checkbox of the toggled value flips. */
  lemma ToggleSpec(selected: seq<string>, value: string)
    ensures value !in selected ==> Toggle(selected, value) == selected + [value]
    ensures value in selected ==>
      value !in Toggle(selected, value) &&
      (forall x :: x != value ==> multiset(Toggle(selected, value))[x] == multiset(selected)[x]) &&
      IsSubsequence(Toggle(selected, value), selected)
    ensures Checked(Toggle(selected, value), value) <==> !Checked(selected, value)
  {
    RemoveAllSpec(selected, value);
  }

  /** Removing a value that is not there changes nothing. */
  lemma {:induction false} WithoutAbsent(s: seq<string>, v: string)
    requires v !in s
    ensures Without(s, v) == s
  {
    FilterAll(s, (x: string) => x != v);
  }

  /** Toggling an unselected value twice restores the selection exactly. */
  lemma ToggleTwiceAbsent(selected: seq<string>, value: string)
    requires value !in selected
    ensures Toggle(Toggle(selected, value), value) == selected
  {
    var p := (x: string) => x != value;
    FilterAppend(selected, [value], p);
    WithoutAbsent(selected, value);
    assert Filter([value], p) == [];
  }

  /** Toggling a selected value twice restores the same set of values, but
      the value now comes last and only once. */
  lemma ToggleTwicePresent(selected: seq<string>, value: string)
    requires value in selected
    ensures Toggle(Toggle(selected, value), value) == Without(selected, value) + [value]
    ensures forall x :: x in Toggle(Toggle(selected, value), value) <==> x in selected
  {
    RemoveAllSpec(selected, value);
  }

  /** A selection without duplicates stays without duplicates. */
  lemma ToggleNoDuplicates(selected: seq<string>, value: string)
    requires NoDuplicates(selected)
    ensures NoDuplicates(Toggle(selected, value))
  {
    var r := Toggle(selected, value);
    RemoveAllSpec(selected, value);
    if value in selected {
      forall i, j | 0 <= i < j < |r|
        ensures r[i] != r[j]
      {
        DistinctCount(selected, r[i]);
        PairCount(r, i, j);
      }
    }
  }

  /** Two equal elements at distinct positions occur at least twice. */
  lemma PairCount(s: seq<string>, i: int, j: int)
    requires 0 <= i < j < |s|
    ensures s[i] == s[j] ==> multiset(s)[s[i]] >= 2
  {
    assert s == s[..i] + [s[i]] + s[i + 1..j] + [s[j]] + s[j + 1..];
  }

  /** In a sequence without duplicates every value occurs at most once. */
  lemma {:induction false} DistinctCount(s: seq<string>, x: string)
    requires NoDuplicates(s)
    ensures multiset(s)[x] <= 1
  {
    if s != [] {
      DistinctCount(s[1..], x);
      assert s == [s[0]] + s[1..];
      assert s[0] !in s[1..];
    }
  }

  /** The count of an option is the number of its occurrences in the column
      the panel governs, and 0 for any other panel. */
  lemma {:induction false} CountSpec(panel: string, daten: seq<Firma>, opt: string)
    ensures panel in {"Firmentyp", "Region", "Branche"} ==>
      Count(panel, daten, opt) == multiset(TextColumn(daten, PanelKey(panel)))[opt]
    ensures panel !in {"Firmentyp", "Region", "Branche"} ==> Count(panel, daten, opt) == 0
  {
    var p := (f: Firma) => Matches(panel, f, opt);
    if daten != [] {
      CountSpec(panel, daten[1..], opt);
      var k := PanelKey(panel);
      assert TextColumn(daten, k) == [TextColumn(daten, k)[0]] + TextColumn(daten[1..], k);
    }
  }
}
