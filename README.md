# BizSelect company table — a Dafny model

This project models the view logic of BizSelect, a browser page that lists
company records (`Firma`: name, type, region, revenue, industry, headcount,
founding year). It covers three components.

- **The table (`FirmenTabelle.tsx`).** It sorts a copy of the records by the
  clicked column, filters the sorted copy with seven ANDed conditions, and
  derives the option lists for the filter panels. It also resets the filters,
  and builds the rows handed to the spreadsheet and PDF exporters.
- **The multi-select panel (`FilterPanel.tsx`).** It toggles, clears and
  selects all options, and counts the matches per option.
- **The range control (`RangeSlider.tsx`).** It clamps a typed endpoint and
  collapses the range when the endpoints cross.

Modules, one per file:

| file | module | contents |
|---|---|---|
| `wrappers.dfy` | `Wrappers` | `Option`, used for the `""` revenue sentinels and for `parseInt` |
| `firma.dfy` | `Firmen` | the record, sort keys, the comparator and its total-preorder laws |
| `seqs.dfy` | `Seqs` | `filter`, subsequences, `Array.from(new Set(..))` in first-seen order |
| `sorting.dfy` | `Sorting` | stable sort: `SortBy` (specification) and `SortCopy`/`InsertAt` (in place on an array) |
| `filter_panel.dfy` | `FilterPanel` | toggle, reset, select-all, checked state, per-option counts |
| `range_slider.dfy` | `RangeSlider` | `handleInput` on a local two-element array, text-field fallback |
| `firmen_tabelle.dfy` | `FirmenTabelle` | filter state, filter predicate, the pipeline, option lists, single-select adapters, revenue slider binding, header click, export rows, and the page state as class `Tabelle` |

Modelling choices:

- `Array.prototype.sort` must be stable since ECMAScript 2019 (ECMA-262,
  10th edition, section 22.1.3.27). The model uses insertion sort. `SortBy`
  is the functional definition. `SortCopy` copies the records into a fresh
  array and sorts it in place, and is proved to return `SortBy`. Both are
  generic over the comparator, and the sort's laws assume only that the
  comparator is a total preorder (`IsPreorder`). `ComparatorIsPreorder`
  proves this for the page's comparator.
- Stability is stated without indices. For every record `z`, the records
  whose key compares equal to `z` form the same subsequence before and after
  sorting (`EqualKeyed`).
- `localeCompare` is modelled as plain lexicographic order on character
  codes (`StrCmp`, returning -1, 0 or 1).
- JS numbers are unbounded integers. `parseInt` returns `Option<int>`, with
  `None` for NaN.
- The current year is a parameter. The fetched record list is passed to
  `Tabelle.SetDaten`.
- The page's `useState` variables are the fields of class `Tabelle`. Every
  handler is a method whose postcondition states the new value of every
  field. The view is the function `Tabelle.View`, and `Tabelle.Render`
  computes it with the in-place sort.

Three details of the source that the model keeps as written:

- `resetFilter` leaves `sortKey` and `sortOrder` unchanged
  (src/components/FirmenTabelle.tsx:71-79).
- When typed input makes the endpoints cross, the range collapses to
  `[c, c]`, where `c` is the clamped value; the endpoints are not swapped
  (src/components/RangeSlider.tsx:18-19).
- The filter has seven conjuncts; the minimum and maximum revenue are
  separate conditions (src/components/FirmenTabelle.tsx:61-67).

## Model

| member | source | states |
|---|---|---|
| Firmen.StrCmpZero | src/components/FirmenTabelle.tsx:55-57 | the string order puts two texts together exactly when they are equal |
| Firmen.StrCmpAntisymmetric | src/components/FirmenTabelle.tsx:55-57 | swapping the texts negates the string comparison |
| Firmen.StrCmpTransitive | src/components/FirmenTabelle.tsx:55-57 | "not after" in the string order is transitive |
| Firmen.CompareAntisymmetric | src/components/FirmenTabelle.tsx:48-58 | swapping the records negates the comparator, for every key and direction |
| Firmen.CompareTransitive | src/components/FirmenTabelle.tsx:48-58 | "not after" under the comparator is transitive, so the comparator is consistent |
| Firmen.CompareZero | src/components/FirmenTabelle.tsx:49-57 | with no key every pair compares equal (the comparator returns 0); with a key, two records compare equal iff that field is equal |
| Seqs.FilterMembers | src/components/FirmenTabelle.tsx:60-69 | `filter` keeps an element iff it occurs in the input and satisfies the predicate, as often as it occurs |
| Seqs.FilterIsSubsequence | src/components/FirmenTabelle.tsx:60-69 | `filter` only deletes elements and never reorders them |
| Seqs.FilterAll | src/components/FirmenTabelle.tsx:60-69 | a predicate that every element satisfies leaves the list unchanged |
| Seqs.DistinctSpec | src/components/FirmenTabelle.tsx:44-46 | `Array.from(new Set(xs))` contains exactly the values of `xs`, each once, ordered by first occurrence |
| Sorting.SortByPermutation | src/components/FirmenTabelle.tsx:48 | the sorted copy has the same length and the same multiset of records as the input |
| Sorting.SortBySorted | src/components/FirmenTabelle.tsx:48-58 | under a consistent comparator, no record of the sorted copy compares after a later one |
| Sorting.SortByStable | src/components/FirmenTabelle.tsx:48-58 | records that compare equal keep their relative input order |
| Sorting.SortByConstantZero | src/components/FirmenTabelle.tsx:49 | a comparator that always returns 0 leaves the input order unchanged |
| Sorting.FilterSorted | src/components/FirmenTabelle.tsx:60-69 | filtering a sorted list keeps it sorted |
| Sorting.InsertAt | src/components/FirmenTabelle.tsx:48 | one in-place insertion step places the element where `Insert` puts it, and leaves the rest of the array alone |
| Sorting.SortCopy | src/components/FirmenTabelle.tsx:48 | sorting a fresh array copy in place yields exactly the stable sort `SortBy` of the input |
| FilterPanel.RemoveAllSpec | src/components/FilterPanel.tsx:24 | `filter(v => v !== value)` removes every occurrence of the value, keeps each other value as often as before, and keeps their order |
| FilterPanel.ToggleSpec | src/components/FilterPanel.tsx:22-28 | toggling an absent value appends it and changes nothing else; toggling a present value removes all its occurrences and keeps the others in order; the toggled checkbox flips |
| FilterPanel.ToggleTwiceAbsent | src/components/FilterPanel.tsx:22-28 | toggling an absent value twice restores the exact selection |
| FilterPanel.ToggleTwicePresent | src/components/FilterPanel.tsx:22-28 | toggling a present value twice restores the same set of values, with that value moved to the end |
| FilterPanel.ToggleNoDuplicates | src/components/FilterPanel.tsx:23-27 | a duplicate-free selection stays duplicate-free after a toggle |
| FilterPanel.CountSpec | src/components/FilterPanel.tsx:44-52 | an option's count is the number of records in the whole data set whose typ/region/branche (chosen by the panel label) equals it, and 0 for any other label |
| RangeSlider.HandleInput | src/components/RangeSlider.tsx:14-22 | the in-place update of the two-element copy emits `Normalised` of the input, and the emitted pair is ordered |
| RangeSlider.ClampSpec | src/components/RangeSlider.tsx:15 | for min <= max the clamped value lies in [min, max] and equals the input when the input is already in range |
| RangeSlider.NormalisedSpec | src/components/RangeSlider.tsx:15-20 | the edited endpoint becomes the clamped value `c`; the other endpoint keeps its value unless lower > upper would result, in which case the range becomes [c, c]; lower <= upper always |
| RangeSlider.NormalisedWithinDomain | src/components/RangeSlider.tsx:15-20 | a range inside [min, max] stays inside it |
| RangeSlider.NormalisedIdempotent | src/components/RangeSlider.tsx:14-22 | applying the same input twice gives the same pair as applying it once |
| RangeSlider.FieldFallback | src/components/RangeSlider.tsx:44-50 | an unparsable entry or 0 moves the lower endpoint to min (upper field: to max) and leaves the other endpoint in place; a non-zero number is normalised as typed |
| FirmenTabelle.ComparatorIsPreorder | src/components/FirmenTabelle.tsx:48-58 | the page's comparator is a total preorder, for every key and direction |
| FirmenTabelle.SortiertSpec | src/components/FirmenTabelle.tsx:48-58 | the sorted copy is a permutation of `daten`, ordered by the comparator, and stable; with no sort key it equals `daten` |
| FirmenTabelle.SortiertOrdersColumn | src/components/FirmenTabelle.tsx:52-57 | for a numeric key "asc" orders the column non-decreasingly and "desc" non-increasingly; for a text key the same holds of the string order |
| FirmenTabelle.DescIsNotReversedAsc | src/components/FirmenTabelle.tsx:52-57 | two distinct records with equal keys keep their order in both directions, so "desc" is not the reverse of "asc" |
| FirmenTabelle.GefiltertSpec | src/components/FirmenTabelle.tsx:60-69 | a record is shown iff it is in `daten` and passes all seven conjuncts, as often as it occurs; the view is a subsequence of the sorted copy and is itself sorted |
| FirmenTabelle.SentinelsConstrainNothing | src/components/FirmenTabelle.tsx:61-67 | each sentinel on its own (empty type list, "Alle" region, "Alle" industry, `""` minimum, `""` maximum revenue) admits a record exactly as a filter naming that record's own value would; with all five in place only the headcount and founding-year ranges constrain a record, each inclusive at both ends |
| FirmenTabelle.ResetShowsEverything | src/components/FirmenTabelle.tsx:71-79 | with the reset filter and no sort key, records within the default ranges are all shown, in their own order |
| FirmenTabelle.WorkedExampleFilter | src/components/FirmenTabelle.tsx:60-69 | example: of the records A (revenue 500000) and B (revenue 2000000), only B passes industry "Tech" with revenue >= 1000000 |
| FirmenTabelle.WorkedExampleSort | src/components/FirmenTabelle.tsx:52-53 | example: sorting A and B by revenue descending gives [B, A] |
| FirmenTabelle.OptionsSpec | src/components/FirmenTabelle.tsx:44-46 | each option list contains every value of its column exactly once and nothing else, ordered by first occurrence in `daten` |
| FirmenTabelle.TypSelectAllShowsAsReset | src/components/FilterPanel.tsx:30-31 | on the type panel, select-all (ticking every option of `Options(daten, Typ)`) shows exactly the same view as reset, whatever the other filters and the sort state |
| FirmenTabelle.TypInOptions | src/components/FirmenTabelle.tsx:44 | the type of every record in `daten` is one of the type panel's options |
| FirmenTabelle.AdapterToggle | src/components/FirmenTabelle.tsx:145-155 | through the single-select adapter, a toggle selects the option when the value is "Alle", clears to "Alle" when it is the selected option, and otherwise leaves the old value |
| FirmenTabelle.AdapterSelectAllResetChecked | src/components/FirmenTabelle.tsx:145-155 | through the adapter, select-all picks `options[0]` (or "Alle" if there are no options) and reset gives "Alle"; an option is checked iff it is the stored value and that value is not "Alle" |
| FirmenTabelle.UmsatzBinding | src/components/FirmenTabelle.tsx:164-170 | after the slider reports a range, it displays exactly that range, and the revenue conjuncts admit exactly the revenues inside it |
| FirmenTabelle.UmsatzEditSetsBothBounds | src/components/FirmenTabelle.tsx:164-170 | editing either revenue field while both bounds are `""` sets both bounds, so a record with revenue above 10000000 is then filtered out |
| FirmenTabelle.HeaderClickSpec | src/components/FirmenTabelle.tsx:236-243 | a click makes the clicked column the sort key; it flips the direction on the active column and sets "asc" on any other; two clicks restore the direction on the active column and leave "desc" on a new one |
| FirmenTabelle.ExcelSheetSpec | src/components/FirmenTabelle.tsx:83-93 | the sheet has the 7-column header and then one 7-cell row per shown record, in order; reading the rows back yields exactly the records |
| FirmenTabelle.DecimalRoundTrip | src/components/FirmenTabelle.tsx:112-113 | the decimal text of an integer reads back as that integer |
| FirmenTabelle.PdfBodySpec | src/components/FirmenTabelle.tsx:106-114 | the PDF body has one 7-column row per shown record, in order; it holds the record's text fields and formatted revenue, and headcount and founding year read back as the record's numbers |
| FirmenTabelle.Tabelle.constructor | src/components/FirmenTabelle.tsx:26-35 | the initial state: no records, default filters, no sort key, "asc" |
| FirmenTabelle.Tabelle.SetDaten | src/components/FirmenTabelle.tsx:37-41 | the loaded records replace `daten`; filters and sort state are unchanged |
| FirmenTabelle.Tabelle.ResetFilter | src/components/FirmenTabelle.tsx:71-79 | sets exactly the seven filter values to their defaults, with founding years `[1980, currentYear]`; `daten`, `sortKey` and `sortOrder` are unchanged |
| FirmenTabelle.Tabelle.ClickHeader | src/components/FirmenTabelle.tsx:236-243 | the sort state becomes `HeaderClick` of the old one; data and filters are unchanged |
| FirmenTabelle.Tabelle.SetFilterTyp | src/components/FirmenTabelle.tsx:135-141 | the type panel's selection is stored as given; nothing else changes |
| FirmenTabelle.Tabelle.SetRegionSelection | src/components/FirmenTabelle.tsx:147 | the region becomes "Alle" for an empty selection, otherwise its first element; nothing else changes |
| FirmenTabelle.Tabelle.SetBrancheSelection | src/components/FirmenTabelle.tsx:155 | the industry becomes "Alle" for an empty selection, otherwise its first element; nothing else changes |
| FirmenTabelle.Tabelle.SetUmsatzRange | src/components/FirmenTabelle.tsx:168-171 | both revenue bounds become numbers from the reported range; nothing else changes |
| FirmenTabelle.Tabelle.SetMitarbeiterRange | src/components/FirmenTabelle.tsx:179 | the headcount range is replaced; nothing else changes |
| FirmenTabelle.Tabelle.SetGruenderRange | src/components/FirmenTabelle.tsx:187 | the founding-year range is replaced; nothing else changes |
| FirmenTabelle.Tabelle.Render | src/components/FirmenTabelle.tsx:48-69 | sorting a copy in place and then filtering yields exactly the view `Gefiltert(daten, filters, sortKey, sortOrder)` |
| FirmenTabelle.Tabelle.ExportExcel | src/components/FirmenTabelle.tsx:82-93 | the spreadsheet rows are `ExcelSheet` of the current view |
| FirmenTabelle.Tabelle.ExportPdf | src/components/FirmenTabelle.tsx:103-115 | the PDF head is the fixed header and the body is `PdfBody` of the current view |
| Firmen.Compare | src/components/FirmenTabelle.tsx:48-58 | the comparator: 0 without a key, the field difference for numeric keys, the string order otherwise, operands swapped for "desc"; its laws are `CompareAntisymmetric`, `CompareTransitive` and `CompareZero` |
| FilterPanel.Toggle | src/components/FilterPanel.tsx:22-28 | the new selection after a checkbox click; its meaning is stated by `ToggleSpec`, `ToggleTwiceAbsent`, `ToggleTwicePresent` and `ToggleNoDuplicates` |
| FilterPanel.SelectAll | src/components/FilterPanel.tsx:31 | the selection after "Alle": the option list; `TypSelectAllShowsAsReset` and `AdapterSelectAllResetChecked` state its effect on the view and on the single-select panels |
| FilterPanel.Reset | src/components/FilterPanel.tsx:30 | the selection after "Zurücksetzen": empty; `TypSelectAllShowsAsReset` and `AdapterSelectAllResetChecked` state its effect |
| FilterPanel.Checked | src/components/FilterPanel.tsx:59 | a checkbox is ticked iff its option is selected; `ToggleSpec` proves a toggle flips exactly the toggled box |
| FilterPanel.Count | src/components/FilterPanel.tsx:44-52 | the per-option count; `CountSpec` states it is the option's multiplicity in the governed column |
| FirmenTabelle.DefaultFilter | src/components/FirmenTabelle.tsx:27-33 | the initial and reset filter values; `ResetShowsEverything` states what they show |
| FirmenTabelle.Passes | src/components/FirmenTabelle.tsx:60-69 | the seven conjuncts of the filter; `SentinelsConstrainNothing`, `UmsatzBinding` and `GefiltertSpec` state their meaning |
| FirmenTabelle.Sortiert | src/components/FirmenTabelle.tsx:48-58 | the sorted copy; `SortiertSpec`, `SortiertOrdersColumn` and `DescIsNotReversedAsc` state its properties |
| FirmenTabelle.Gefiltert | src/components/FirmenTabelle.tsx:60-69 | the shown records; `GefiltertSpec` states membership, multiplicity, order and sortedness |
| FirmenTabelle.Options | src/components/FirmenTabelle.tsx:44-46 | the option lists; `OptionsSpec` states they hold each column value once, in first-seen order |
| FirmenTabelle.SingleSelection | src/components/FirmenTabelle.tsx:145 | the selection shown by the region and industry panels; `AdapterToggle` and `AdapterSelectAllResetChecked` state the composed behaviour |
| FirmenTabelle.FromSelection | src/components/FirmenTabelle.tsx:147 | the value stored from a region or industry selection; `AdapterToggle` and `AdapterSelectAllResetChecked` state the composed behaviour |
| FirmenTabelle.UmsatzSliderValue | src/components/FirmenTabelle.tsx:164-167 | the pair shown on the revenue slider; `UmsatzBinding` states it shows the last reported range |
| FirmenTabelle.WithUmsatzRange | src/components/FirmenTabelle.tsx:168-171 | the filter after the revenue slider reports a range; `UmsatzBinding` and `UmsatzEditSetsBothBounds` state its effect |
| FirmenTabelle.HeaderClick | src/components/FirmenTabelle.tsx:236-243 | the sort state after a header click; `HeaderClickSpec` states its behaviour |
| FirmenTabelle.ExcelSheet | src/components/FirmenTabelle.tsx:83-93 | the array of rows handed to `aoa_to_sheet`; `ExcelSheetSpec` states its shape and that it reads back as the records |
| FirmenTabelle.PdfBody | src/components/FirmenTabelle.tsx:106-114 | the `body` handed to `autoTable`; `PdfBodySpec` states its shape and contents |
| FirmenTabelle.Tabelle.View | src/components/FirmenTabelle.tsx:48-69 | the view of the current state, `Gefiltert` of the fields; `Render`, `ExportExcel` and `ExportPdf` are proved against it |
| RangeSlider.Clamp | src/components/RangeSlider.tsx:15 | `Math.max(min, Math.min(max, v))`; `ClampSpec` states its bounds |
| RangeSlider.Normalised | src/components/RangeSlider.tsx:15-20 | the pair `handleInput` emits; `NormalisedSpec`, `NormalisedWithinDomain` and `NormalisedIdempotent` state its meaning |
| RangeSlider.TextValue | src/components/RangeSlider.tsx:44-50 | `parseInt(..) || fallback`; `FieldFallback` states its effect on both fields |

## Left out

- JSX rendering, the sidebar toggle, the logo and styling are not modelled. They are presentation only.
- The `fetch` of `/demo_firmen.json` is I/O. The record list is the argument of `Tabelle.SetDaten`. Records are typed, so the comparator's mixed-type `String(...)` fallback never applies.
- The XLSX and jsPDF calls (worksheet and workbook creation, `writeFile`, `doc.text`, `autoTable` layout, `save`, the file names) belong to foreign libraries. Only the header and row arrays handed to them are modelled.
- `toLocaleString("de-DE")` is a parameter `formatUmsatz` of the PDF rows. Locale formatting is not modelled.
- `localeCompare` collation depends on the locale. It is replaced by lexicographic order on character codes.
- `new Date().getFullYear()` is the parameter `currentYear`.
- JS number semantics (doubles, NaN, `-0`, fractional input truncated by `parseInt`) are not modelled. All numeric fields and bounds are integers.
- FirmenTabelle.Decimal: models `toString` only as plain decimal digits. JS switches to exponent notation from 1e21 upward.
- Sorting.SortCopy: the engine's own sort algorithm is replaced by insertion sort. Stability plus a consistent comparator determine the result in the source as well, but the model does not prove that every stable sort gives the same result.
- The rc-slider drag interaction is an external widget that passes values straight to `onChange`. Only the `onChange` handlers of the page are modelled.
- The `Dropdown` and `NumberInput` components are never rendered.
- `App.tsx` only composes components.
