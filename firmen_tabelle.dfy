/** The company table of src/components/FirmenTabelle.tsx: the filter state,
    the view pipeline (sort a copy, then filter), the option lists, the
    single-select adapters over the multi-select panel, the export rows, and
    the page state as a class. */
module FirmenTabelle {

  import opened Wrappers
  import opened Firmen
  import opened Seqs
  import opened Sorting
  import opened FilterPanel
  import opened RangeSlider

  /** The "no constraint" value of the region and industry filters. */
  const Alle: string := "Alle"

  /** The upper end of the revenue slider's domain. */
  const UmsatzSliderMax: int := 10000000

  /** The seven filter values; `None` stands for the `""` revenue sentinel. */
  datatype FilterState = FilterState(
    typ: seq<string>,
    region: string,
    branche: string,
    minUmsatz: Option<int>,
    maxUmsatz: Option<int>,
    mitarbeiter: (int, int),
    gruender: (int, int))

  /** The initial filter values, which `resetFilter` restores. */
  function DefaultFilter(currentYear: int): FilterState
  {
    FilterState([], Alle, Alle, None, None, (0, 500), (1980, currentYear))
  }

  /** The predicate of `sortierteDaten.filter`: seven conjuncts, each vacuous
      at its sentinel, the numeric ranges inclusive at both ends. */
  predicate Passes(fs: FilterState, f: Firma)
  {
    (|fs.typ| == 0 || f.typ in fs.typ) &&
    (fs.region == Alle || f.region == fs.region) &&
    (fs.branche == Alle || f.branche == fs.branche) &&
    (fs.minUmsatz.None? || f.umsatz >= fs.minUmsatz.value) &&
    (fs.maxUmsatz.None? || f.umsatz <= fs.maxUmsatz.value) &&
    (f.mitarbeiter >= fs.mitarbeiter.0 && f.mitarbeiter <= fs.mitarbeiter.1) &&
    (f.gruendung >= fs.gruender.0 && f.gruendung <= fs.gruender.1)
  }

  /** The comparator closure passed to `sort`. */
  function Comparator(key: Option<Key>, order: Order): (Firma, Firma) -> int
  {
    (a: Firma, b: Firma) => Compare(key, order, a, b)
  }

  /** `sortierteDaten`: the stable sort of a copy of `daten`. */
  function Sortiert(daten: seq<Firma>, key: Option<Key>, order: Order): seq<Firma>
  {
    SortBy(Comparator(key, order), daten)
  }

  /** `gefiltert`: the sorted copy, filtered. */
  function Gefiltert(daten: seq<Firma>, fs: FilterState, key: Option<Key>, order: Order): seq<Firma>
  {
    Filter(Sortiert(daten, key, order), (f: Firma) => Passes(fs, f))
  }

  lemma ComparatorIsPreorder(key: Option<Key>, order: Order)
    ensures IsPreorder(Comparator(key, order))
  {
    var cmp := Comparator(key, order);
    forall a, b
      ensures cmp(b, a) == -cmp(a, b)
    {
      CompareAntisymmetric(key, order, a, b);
    }
    forall a, b, c | cmp(a, b) <= 0 && cmp(b, c) <= 0
      ensures cmp(a, c) <= 0
    {
      CompareTransitive(key, order, a, b, c);
    }
  }

  /** The sorted copy is a permutation of `daten`, ordered by the comparator,
      keeps records with equal keys in their original relative order, and
      without a sort key is `daten` itself. */
  lemma SortiertSpec(daten: seq<Firma>, key: Option<Key>, order: Order)
    ensures |Sortiert(daten, key, order)| == |daten|
    ensures multiset(Sortiert(daten, key, order)) == multiset(daten)
    ensures Sorted(Comparator(key, order), Sortiert(daten, key, order))
    ensures forall z :: EqualKeyed(Comparator(key, order), Sortiert(daten, key, order), z) ==
                        EqualKeyed(Comparator(key, order), daten, z)
    ensures key.None? ==> Sortiert(daten, key, order) == daten
  {
    var cmp := Comparator(key, order);
    ComparatorIsPreorder(key, order);
    SortByPermutation(cmp, daten);
    SortBySorted(cmp, daten);
    forall z
      ensures EqualKeyed(cmp, SortBy(cmp, daten), z) == EqualKeyed(cmp, daten, z)
    {
      SortByStable(cmp, daten, z);
    }
    if key.None? {
      SortByConstantZero(cmp, daten);
    }
  }

  /** For a numeric key "asc" orders the column non-decreasingly and "desc"
      non-increasingly; for a text key the same holds of the string order. */
  lemma SortiertOrdersColumn(daten: seq<Firma>, key: Key, order: Order, i: int, j: int)
    requires 0 <= i < j < |daten|
    ensures |Sortiert(daten, Some(key), order)| == |daten|
    ensures var r := Sortiert(daten, Some(key), order);
      (key.IsNumeric() && order == Asc ==> NumberField(r[i], key) <= NumberField(r[j], key)) &&
      (key.IsNumeric() && order == Desc ==> NumberField(r[i], key) >= NumberField(r[j], key)) &&
      (!key.IsNumeric() && order == Asc ==> StrCmp(TextField(r[i], key), TextField(r[j], key)) <= 0) &&
      (!key.IsNumeric() && order == Desc ==> StrCmp(TextField(r[i], key), TextField(r[j], key)) >= 0)
  {
    SortiertSpec(daten, Some(key), order);
    var r := Sortiert(daten, Some(key), order);
    assert Compare(Some(key), order, r[i], r[j]) <= 0;
    if !key.IsNumeric() {
      StrCmpAntisymmetric(TextField(r[i], key), TextField(r[j], key));
    }
  }

  /** Two records with the same key keep their order in both directions:
      "desc" is not the reverse of "asc". */
  lemma DescIsNotReversedAsc(a: Firma, b: Firma, key: Key)
    requires a != b
    requires key.IsNumeric() ==> NumberField(a, key) == NumberField(b, key)
    requires !key.IsNumeric() ==> TextField(a, key) == TextField(b, key)
    ensures Sortiert([a, b], Some(key), Asc) == [a, b]
    ensures Sortiert([a, b], Some(key), Desc) == [a, b]
    ensures Sortiert([a, b], Some(key), Desc) != [b, a]
  {
    CompareZero(Some(key), Asc, a, b);
    CompareZero(Some(key), Desc, a, b);
    assert [a, b][..1] == [a];
    assert [a][..0] == [];
    forall order: Order
      ensures Sortiert([a, b], Some(key), order) == [a, b]
    {
      var cmp := Comparator(Some(key), order);
      assert SortBy(cmp, [a]) == [a];
      assert cmp(a, b) == 0;
      assert Insert(cmp, [a], b) == [a, b];
    }
  }

  /** A record is shown iff it is in `daten` and passes all seven conjuncts,
      and it is shown as often as it occurs in `daten`. The view keeps the
      order of the sorted copy, so it is sorted by the active key. */
  lemma GefiltertSpec(daten: seq<Firma>, fs: FilterState, key: Option<Key>, order: Order)
    ensures forall x :: x in Gefiltert(daten, fs, key, order) <==> x in daten && Passes(fs, x)
    ensures forall x :: multiset(Gefiltert(daten, fs, key, order))[x] ==
                        if Passes(fs, x) then multiset(daten)[x] else 0
    ensures IsSubsequence(Gefiltert(daten, fs, key, order), Sortiert(daten, key, order))
    ensures Sorted(Comparator(key, order), Gefiltert(daten, fs, key, order))
  {
    var p := (f: Firma) => Passes(fs, f);
    var sorted := Sortiert(daten, key, order);
    SortiertSpec(daten, key, order);
    forall x
      ensures x in Gefiltert(daten, fs, key, order) <==> x in daten && Passes(fs, x)
      ensures multiset(Gefiltert(daten, fs, key, order))[x] ==
              if Passes(fs, x) then multiset(daten)[x] else 0
    {
      FilterMembers(sorted, p, x);
      assert x in sorted <==> x in multiset(sorted);
    }
    FilterIsSubsequence(sorted, p);
    FilterSorted(Comparator(key, order), sorted, p);
  }

  /** Each sentinel on its own admits a record exactly as the filter that
      names the record's own value would: the empty type list, "Alle" for
      region and industry, and `""` for either revenue bound. With every
      sentinel in place only the headcount and founding-year ranges
      constrain a record, both inclusive at each end. */
  lemma SentinelsConstrainNothing(fs: FilterState, f: Firma)
    ensures |fs.typ| == 0 ==> (Passes(fs, f) <==> Passes(fs.(typ := [f.typ]), f))
    ensures fs.region == Alle ==> (Passes(fs, f) <==> Passes(fs.(region := f.region), f))
    ensures fs.branche == Alle ==> (Passes(fs, f) <==> Passes(fs.(branche := f.branche), f))
    ensures fs.minUmsatz.None? ==> (Passes(fs, f) <==> Passes(fs.(minUmsatz := Some(f.umsatz)), f))
    ensures fs.maxUmsatz.None? ==> (Passes(fs, f) <==> Passes(fs.(maxUmsatz := Some(f.umsatz)), f))
    ensures |fs.typ| == 0 && fs.region == Alle && fs.branche == Alle &&
            fs.minUmsatz.None? && fs.maxUmsatz.None? ==>
      (Passes(fs, f) <==>
        fs.mitarbeiter.0 <= f.mitarbeiter <= fs.mitarbeiter.1 &&
        fs.gruender.0 <= f.gruendung <= fs.gruender.1)
  {
  }

  /** Right after a reset and without a sort key, a data set whose records
      all lie in the default ranges is shown whole and in its own order. */
  lemma ResetShowsEverything(daten: seq<Firma>, order: Order, currentYear: int)
    requires forall i :: 0 <= i < |daten| ==>
      0 <= daten[i].mitarbeiter <= 500 && 1980 <= daten[i].gruendung <= currentYear
    ensures Gefiltert(daten, DefaultFilter(currentYear), None, order) == daten
  {
    SortiertSpec(daten, None, order);
    FilterAll(daten, (f: Firma) => Passes(DefaultFilter(currentYear), f));
  }

  /** The worked example: two records, industry "Tech", revenue at least one
      million; only the second is shown. */
  lemma WorkedExampleFilter(a: Firma, b: Firma, fs: FilterState)
    requires a == Firma("A", "GmbH", "Nord", 500000, "Tech", 10, 2010)
    requires b == Firma("B", "AG", "Süd", 2000000, "Tech", 300, 1995)
    requires fs == FilterState([], Alle, "Tech", Some(1000000), None, (0, 500), (1980, 2025))
    ensures Gefiltert([a, b], fs, None, Asc) == [b]
  {
    var g := Gefiltert([a, b], fs, None, Asc);
    GefiltertSpec([a, b], fs, None, Asc);
    assert !Passes(fs, a) && Passes(fs, b);
    assert multiset(g) == multiset{b};
    assert |g| == |multiset(g)| == 1;
    assert g[0] in multiset(g);
  }

  /** The worked example, sorted by revenue descending: the larger revenue
      comes first. */
  lemma WorkedExampleSort(a: Firma, b: Firma)
    requires a == Firma("A", "GmbH", "Nord", 500000, "Tech", 10, 2010)
    requires b == Firma("B", "AG", "Süd", 2000000, "Tech", 300, 1995)
    ensures Sortiert([a, b], Some(Umsatz), Desc) == [b, a]
  {
    var cmp := Comparator(Some(Umsatz), Desc);
    assert [a, b][..1] == [a];
    assert SortBy(cmp, [a]) == [a];
    assert cmp(a, b) > 0;
    assert Insert(cmp, [a], b) == Insert(cmp, [], b) + [a];
  }

  // Option lists

  /** `Array.from(new Set(daten.map(f => f.<k>)))` for the type, region and
      industry columns. */
  function Options(daten: seq<Firma>, k: Key): seq<string>
    requires k == Typ || k == Region || k == Branche
  {
    Distinct(TextColumn(daten, k))
  }

  /** Each option list holds every value of its column exactly once, ordered
      by first occurrence in `daten`, and nothing else. */
  lemma OptionsSpec(daten: seq<Firma>, k: Key)
    requires k == Typ || k == Region || k == Branche
    ensures forall v :: v in Options(daten, k) <==> v in TextColumn(daten, k)
    ensures forall v :: v in Options(daten, k) <==>
      exists i :: 0 <= i < |daten| && TextField(daten[i], k) == v
    ensures NoDuplicates(Options(daten, k))
    ensures forall i, j :: 0 <= i < j < |Options(daten, k)| ==>
      FirstIndex(TextColumn(daten, k), Options(daten, k)[i]) <
      FirstIndex(TextColumn(daten, k), Options(daten, k)[j])
  {
    var col := TextColumn(daten, k);
    DistinctSpec(col);
    forall v
      ensures v in col <==> exists i :: 0 <= i < |daten| && TextField(daten[i], k) == v
    {
      if v in col {
        var i :| 0 <= i < |col| && col[i] == v;
        assert TextField(daten[i], k) == v;
      } else {
        forall i | 0 <= i < |daten|
          ensures TextField(daten[i], k) != v
        {
          assert col[i] == TextField(daten[i], k);
        }
      }
    }
  }

  /** On the type panel, "Alle" (every option ticked) and "Zurücksetzen"
      (nothing ticked) show the same records: the options are exactly the
      types occurring in `daten`, so ticking all of them excludes nothing. */
  lemma TypSelectAllShowsAsReset(daten: seq<Firma>, fs: FilterState, key: Option<Key>, order: Order)
    ensures Gefiltert(daten, fs.(typ := SelectAll(Options(daten, Typ))), key, order) ==
            Gefiltert(daten, fs.(typ := FilterPanel.Reset()), key, order)
  {
    var all := fs.(typ := SelectAll(Options(daten, Typ)));
    var none := fs.(typ := FilterPanel.Reset());
    var sorted := Sortiert(daten, key, order);
    SortByPermutation(Comparator(key, order), daten);
    forall i | 0 <= i < |sorted|
      ensures Passes(all, sorted[i]) == Passes(none, sorted[i])
    {
      assert sorted[i] in multiset(daten);
      TypInOptions(daten, sorted[i]);
    }
    FilterAgree(sorted, (f: Firma) => Passes(all, f), (f: Firma) => Passes(none, f));
  }

  /** The type of every record is among the type panel's options. */
  lemma TypInOptions(daten: seq<Firma>, x: Firma)
    requires x in daten
    ensures x.typ in Options(daten, Typ)
  {
    OptionsSpec(daten, Typ);
    var j :| 0 <= j < |daten| && daten[j] == x;
    assert TextField(daten[j], Typ) == x.typ;
  }

  // The single-select adapters of the region and industry panels

  /** The selection a region/industry panel is shown: none for "Alle". */
  function SingleSelection(value: string): seq<string>
  {
    if value == Alle then [] else [value]
  }

  /** What the panel's `onChange` stores: "Alle" for an empty selection,
      otherwise its first element. */
  function FromSelection(vals: seq<string>): string
  {
    if |vals| == 0 then Alle else vals[0]
  }

  /** Toggling an option through the adapter: with nothing selected it
      selects the option, toggling the selected one clears the filter, and
      toggling a second option leaves the old value in place. */
  lemma AdapterToggle(current: string, opt: string)
    ensures FromSelection(Toggle(SingleSelection(current), opt)) ==
      if current == Alle then opt else if opt == current then Alle else current
  {
    if current != Alle && opt == current {
      RemoveAllSpec([current], current);
    }
  }

  /** "Alle" in the panel picks the first option (or none if there is none);
      "Zurücksetzen" clears the filter; a box is ticked iff it is the value. */
  lemma AdapterSelectAllResetChecked(current: string, options: seq<string>, opt: string)
    ensures FromSelection(SelectAll(options)) == if options == [] then Alle else options[0]
    ensures FromSelection(FilterPanel.Reset()) == Alle
    ensures Checked(SingleSelection(current), opt) <==> current != Alle && opt == current
  {
  }

  // The revenue slider binding

  /** The pair shown on the revenue slider: the sentinels read as 0 and
      the top of the domain. */
  function UmsatzSliderValue(fs: FilterState): (int, int)
  {
    (fs.minUmsatz.GetOr(0), fs.maxUmsatz.GetOr(UmsatzSliderMax))
  }

  /** The slider's `onChange`: both bounds become numbers. */
  function WithUmsatzRange(fs: FilterState, r: (int, int)): FilterState
  {
    fs.(minUmsatz := Some(r.0), maxUmsatz := Some(r.1))
  }

  /** After the slider reports a range it shows that range, and the revenue
      conjunct then admits exactly the revenues inside it. */
  lemma UmsatzBinding(fs: FilterState, r: (int, int), f: Firma)
    ensures UmsatzSliderValue(WithUmsatzRange(fs, r)) == r
    ensures Passes(WithUmsatzRange(fs, r), f) <==>
      Passes(fs.(minUmsatz := None, maxUmsatz := None), f) && r.0 <= f.umsatz <= r.1
  {
  }

  /** Typing into either revenue field while both bounds are unset also sets
      the other bound, to the slider's domain end, so from then on a record
      with a revenue above the slider maximum is filtered out. */
  lemma UmsatzEditSetsBothBounds(fs: FilterState, index: int, newValue: int, f: Firma)
    requires index == 0 || index == 1
    requires fs.minUmsatz.None? && fs.maxUmsatz.None?
    requires f.umsatz > UmsatzSliderMax
    ensures !Passes(WithUmsatzRange(fs, Normalised(UmsatzSliderValue(fs), 0, UmsatzSliderMax, index, newValue)), f)
  {
    NormalisedWithinDomain(UmsatzSliderValue(fs), 0, UmsatzSliderMax, index, newValue);
  }

  // Header click

  /** The sort state after a click on the header of `clicked`. */
  function HeaderClick(sortKey: Option<Key>, sortOrder: Order, clicked: Key): (Option<Key>, Order)
  {
    if sortKey == Some(clicked) then (sortKey, if sortOrder == Asc then Desc else Asc)
    else (Some(clicked), Asc)
  }

  /** A click always makes the clicked column the sort key; on the active
      column it flips the direction, on another column it starts at "asc".
      Two clicks on the same column restore the direction on the active one
      and leave "desc" on a new one. */
  lemma HeaderClickSpec(sortKey: Option<Key>, sortOrder: Order, clicked: Key)
    ensures HeaderClick(sortKey, sortOrder, clicked).0 == Some(clicked)
    ensures HeaderClick(sortKey, sortOrder, clicked).1 != sortOrder <==> sortKey == Some(clicked) || sortOrder == Desc
    ensures var once := HeaderClick(sortKey, sortOrder, clicked);
      HeaderClick(once.0, once.1, clicked) ==
        (Some(clicked), if sortKey == Some(clicked) then sortOrder else Desc)
  {
  }

  // Export rows

  /** A spreadsheet cell: text, or a raw number. */
  datatype Cell = Text(text: string) | Number(number: int)

  /** The fixed header of both exports. */
  const Header: seq<string> := ["Name", "Typ", "Region", "Branche", "Umsatz (€)", "Mitarbeiter", "Gründer"]

  function HeaderCells(): seq<Cell>
  {
    seq(|Header|, i requires 0 <= i < |Header| => Text(Header[i]))
  }

  /** One spreadsheet row: the text columns, then the numbers unformatted. */
  function ExcelRow(f: Firma): seq<Cell>
  {
    [Text(f.name), Text(f.typ), Text(f.region), Text(f.branche),
     Number(f.umsatz), Number(f.mitarbeiter), Number(f.gruendung)]
  }

  /** The array of arrays handed to `aoa_to_sheet`: header, then one row per
      shown record in display order. */
  function ExcelSheet(rows: seq<Firma>): seq<seq<Cell>>
  {
    [HeaderCells()] + seq(|rows|, i requires 0 <= i < |rows| => ExcelRow(rows[i]))
  }

  /** Reads a record back from a spreadsheet row. */
  function RowRecord(row: seq<Cell>): Option<Firma>
  {
    if |row| == 7 && row[0].Text? && row[1].Text? && row[2].Text? && row[3].Text? &&
       row[4].Number? && row[5].Number? && row[6].Number?
    then Some(Firma(row[0].text, row[1].text, row[2].text, row[4].number,
                    row[3].text, row[5].number, row[6].number))
    else None
  }

  function RowsRecords(rows: seq<seq<Cell>>): Option<seq<Firma>>
  {
    if rows == [] then Some([])
    else
      match (RowRecord(rows[0]), RowsRecords(rows[1..]))
      case (Some(f), Some(fs)) => Some([f] + fs)
      case _ => None
  }

  /** Reads the records back from a sheet that starts with the header. */
  function SheetRecords(sheet: seq<seq<Cell>>): Option<seq<Firma>>
  {
    if |sheet| == 0 || sheet[0] != HeaderCells() then None else RowsRecords(sheet[1..])
  }

  lemma {:induction false} RowsRoundTrip(rows: seq<Firma>)
    ensures RowsRecords(seq(|rows|, i requires 0 <= i < |rows| => ExcelRow(rows[i]))) == Some(rows)
  {
    if rows != [] {
      var cells := seq(|rows|, i requires 0 <= i < |rows| => ExcelRow(rows[i]));
      RowsRoundTrip(rows[1..]);
      assert cells[1..] == seq(|rows[1..]|, i requires 0 <= i < |rows[1..]| => ExcelRow(rows[1..][i]));
      assert rows == [rows[0]] + rows[1..];
    }
  }

  /** The spreadsheet has the seven-column header, then one seven-cell row per
      record in the same order, and every record can be read back from it. */
  lemma ExcelSheetSpec(rows: seq<Firma>)
    ensures |ExcelSheet(rows)| == |rows| + 1
    ensures |ExcelSheet(rows)[0]| == 7
    ensures forall k :: 0 <= k < |ExcelSheet(rows)| ==> |ExcelSheet(rows)[k]| == 7
    ensures SheetRecords(ExcelSheet(rows)) == Some(rows)
  {
    RowsRoundTrip(rows);
    assert ExcelSheet(rows)[1..] == seq(|rows|, i requires 0 <= i < |rows| => ExcelRow(rows[i]));
  }

  /** `n.toString()` for an integer: an optional minus sign, then the decimal
      digits without leading zeros. */
  function Decimal(n: int): string
  {
    if n < 0 then "-" + Digits(-n) else Digits(n)
  }

  function Digits(n: nat): string
  {
    if n < 10 then [DigitChar(n)] else Digits(n / 10) + [DigitChar(n % 10)]
  }

  function DigitChar(d: nat): char
    requires d < 10
  {
    (48 + d) as char
  }

  function DigitValue(c: char): Option<int>
  {
    if '0' <= c <= '9' then Some(c as int - 48) else None
  }

  /** Reads a non-empty string of decimal digits. */
  function ParseDigits(s: string): Option<int>
  {
    if |s| == 0 then None
    else if |s| == 1 then DigitValue(s[0])
    else
      match (ParseDigits(s[..|s| - 1]), DigitValue(s[|s| - 1]))
      case (Some(high), Some(low)) => Some(10 * high + low)
      case _ => None
  }

  /** Reads an optionally signed decimal integer. */
  function ParseDecimal(s: string): Option<int>
  {
    if |s| > 0 && s[0] == '-' then
      match ParseDigits(s[1..])
      case Some(v) => Some(-v)
      case None => None
    else ParseDigits(s)
  }

  lemma {:induction false} DigitsRoundTrip(n: nat)
    ensures |Digits(n)| > 0 && '0' <= Digits(n)[0] <= '9'
    ensures ParseDigits(Digits(n)) == Some(n)
  {
    if n >= 10 {
      DigitsRoundTrip(n / 10);
      var s := Digits(n);
      assert s[..|s| - 1] == Digits(n / 10);
    }
  }

  /** The decimal text of an integer reads back as that integer. */
  lemma DecimalRoundTrip(n: int)
    ensures ParseDecimal(Decimal(n)) == Some(n)
  {
    if n < 0 {
      DigitsRoundTrip(-n);
      assert Decimal(n)[1..] == Digits(-n);
    } else {
      DigitsRoundTrip(n);
    }
  }

  /** One body row of the PDF table; `formatUmsatz` stands for
      `toLocaleString("de-DE")`. */
  function PdfRow(formatUmsatz: int -> string, f: Firma): seq<string>
  {
    [f.name, f.typ, f.region, f.branche,
     formatUmsatz(f.umsatz), Decimal(f.mitarbeiter), Decimal(f.gruendung)]
  }

  /** The `body` handed to `autoTable`: one row per shown record, in order. */
  function PdfBody(formatUmsatz: int -> string, rows: seq<Firma>): seq<seq<string>>
  {
    seq(|rows|, i requires 0 <= i < |rows| => PdfRow(formatUmsatz, rows[i]))
  }

  /** The PDF body has one seven-column row per record, in order; the text
      columns are the record's, and headcount and founding year read back as
      the record's numbers. */
  lemma PdfBodySpec(formatUmsatz: int -> string, rows: seq<Firma>, k: int)
    requires 0 <= k < |rows|
    ensures |PdfBody(formatUmsatz, rows)| == |rows|
    ensures var row := PdfBody(formatUmsatz, rows)[k];
      |row| == |Header| &&
      row[0] == rows[k].name && row[1] == rows[k].typ &&
      row[2] == rows[k].region && row[3] == rows[k].branche &&
      row[4] == formatUmsatz(rows[k].umsatz) &&
      ParseDecimal(row[5]) == Some(rows[k].mitarbeiter) &&
      ParseDecimal(row[6]) == Some(rows[k].gruendung)
  {
    DecimalRoundTrip(rows[k].mitarbeiter);
    DecimalRoundTrip(rows[k].gruendung);
  }

  // The page state

  /** The `useState` variables of the page (the sidebar flag left aside). */
  class Tabelle {
    var daten: seq<Firma>
    var filterTyp: seq<string>
    var filterRegion: string
    var filterBranche: string
    var minUmsatz: Option<int>
    var maxUmsatz: Option<int>
    var mitarbeiterRange: (int, int)
    var gruenderRange: (int, int)
    var sortKey: Option<Key>
    var sortOrder: Order

    /** The initial state, before the data set has been fetched. */
    constructor (currentYear: int)
      ensures daten == [] && CurrentFilter() == DefaultFilter(currentYear)
      ensures sortKey == None && sortOrder == Asc
    {
      daten := [];
      filterTyp, filterRegion, filterBranche := [], Alle, Alle;
      minUmsatz, maxUmsatz := None, None;
      mitarbeiterRange, gruenderRange := (0, 500), (1980, currentYear);
      sortKey, sortOrder := None, Asc;
    }

    function CurrentFilter(): FilterState
      reads this
    {
      FilterState(filterTyp, filterRegion, filterBranche, minUmsatz, maxUmsatz,
                  mitarbeiterRange, gruenderRange)
    }

    /** The records the table shows. */
    function View(): seq<Firma>
      reads this
    {
      Gefiltert(daten, CurrentFilter(), sortKey, sortOrder)
    }

    /** `setDaten` with the fetched records. */
    method SetDaten(data: seq<Firma>)
      modifies this
      ensures daten == data
      ensures CurrentFilter() == old(CurrentFilter())
      ensures sortKey == old(sortKey) && sortOrder == old(sortOrder)
    {
      daten := data;
    }

    /** `resetFilter`: the seven filter values return to their defaults; the
        data and the sort state stay as they are. */
    method ResetFilter(currentYear: int)
      modifies this
      ensures CurrentFilter() == DefaultFilter(currentYear)
      ensures daten == old(daten)
      ensures sortKey == old(sortKey) && sortOrder == old(sortOrder)
    {
      filterTyp := [];
      filterRegion := Alle;
      filterBranche := Alle;
      minUmsatz := None;
      maxUmsatz := None;
      mitarbeiterRange := (0, 500);
      gruenderRange := (1980, currentYear);
    }

    /** The `onClick` of a column header. */
    method ClickHeader(clicked: Key)
      modifies this
      ensures (sortKey, sortOrder) == HeaderClick(old(sortKey), old(sortOrder), clicked)
      ensures daten == old(daten) && CurrentFilter() == old(CurrentFilter())
    {
      if sortKey == Some(clicked) {
        sortOrder := if sortOrder == Asc then Desc else Asc;
      } else {
        sortKey := Some(clicked);
        sortOrder := Asc;
      }
    }

    /** `onChange` of the type panel: the selection is stored as it is. */
    method SetFilterTyp(vals: seq<string>)
      modifies this
      ensures CurrentFilter() == old(CurrentFilter()).(typ := vals)
      ensures daten == old(daten) && sortKey == old(sortKey) && sortOrder == old(sortOrder)
    {
      filterTyp := vals;
    }

    /** `onChange` of the region panel, through the single-select adapter. */
    method SetRegionSelection(vals: seq<string>)
      modifies this
      ensures CurrentFilter() == old(CurrentFilter()).(region := FromSelection(vals))
      ensures daten == old(daten) && sortKey == old(sortKey) && sortOrder == old(sortOrder)
    {
      filterRegion := if |vals| == 0 then Alle else vals[0];
    }

    /** `onChange` of the industry panel, through the single-select adapter. */
    method SetBrancheSelection(vals: seq<string>)
      modifies this
      ensures CurrentFilter() == old(CurrentFilter()).(branche := FromSelection(vals))
      ensures daten == old(daten) && sortKey == old(sortKey) && sortOrder == old(sortOrder)
    {
      filterBranche := if |vals| == 0 then Alle else vals[0];
    }

    /** `onChange` of the revenue slider: both bounds become numbers. */
    method SetUmsatzRange(r: (int, int))
      modifies this
      ensures CurrentFilter() == WithUmsatzRange(old(CurrentFilter()), r)
      ensures daten == old(daten) && sortKey == old(sortKey) && sortOrder == old(sortOrder)
    {
      minUmsatz := Some(r.0);
      maxUmsatz := Some(r.1);
    }

    /** `onChange` of the headcount slider. */
    method SetMitarbeiterRange(r: (int, int))
      modifies this
      ensures CurrentFilter() == old(CurrentFilter()).(mitarbeiter := r)
      ensures daten == old(daten) && sortKey == old(sortKey) && sortOrder == old(sortOrder)
    {
      mitarbeiterRange := r;
    }

    /** `onChange` of the founding-year slider. */
    method SetGruenderRange(r: (int, int))
      modifies this
      ensures CurrentFilter() == old(CurrentFilter()).(gruender := r)
      ensures daten == old(daten) && sortKey == old(sortKey) && sortOrder == old(sortOrder)
    {
      gruenderRange := r;
    }

    /** What a render computes: sort a copy of `daten` in place, then filter
        it. `daten` is not touched. */
    method Render() returns (gefiltert: seq<Firma>)
      ensures gefiltert == View()
    {
      var sortierteDaten := SortCopy(Comparator(sortKey, sortOrder), daten);
      var fs := CurrentFilter();
      gefiltert := Filter(sortierteDaten, (f: Firma) => Passes(fs, f));
    }

    /** `exportExcel`: the rows handed to the spreadsheet library. */
    method ExportExcel() returns (sheet: seq<seq<Cell>>)
      ensures sheet == ExcelSheet(View())
    {
      var gefiltert := Render();
      sheet := ExcelSheet(gefiltert);
    }

    /** `exportPDF`: the header and body handed to the table library. */
    method ExportPdf(formatUmsatz: int -> string) returns (head: seq<string>, body: seq<seq<string>>)
      ensures head == Header && body == PdfBody(formatUmsatz, View())
    {
      var gefiltert := Render();
      head := Header;
      body := PdfBody(formatUmsatz, gefiltert);
    }
  }
}
