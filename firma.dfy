/** A company record (`Firma` in src/components/FirmenTabelle.tsx), the keys a
    table column can be sorted by, and the sort comparator. */
module Firmen {

  import opened Wrappers

  /** One company entry. JS numbers are modelled as unbounded integers. */
  datatype Firma = Firma(
    name: string,
    typ: string,
    region: string,
    umsatz: int,
    branche: string,
    mitarbeiter: int,
    gruendung: int)

  /** `keyof Firma`: the columns of the table, in declaration order. */
  datatype Key = Name | Typ | Region | Umsatz | Branche | Mitarbeiter | Gruendung {
    /** The keys whose field holds a number (`typeof aValue === "number"`). */
    predicate IsNumeric() {
      Umsatz? || Mitarbeiter? || Gruendung?
    }
  }

  datatype Order = Asc | Desc

  /** The numeric field selected by a numeric key. */
  function NumberField(f: Firma, k: Key): int
    requires k.IsNumeric()
  {
    match k
    case Umsatz => f.umsatz
    case Mitarbeiter => f.mitarbeiter
    case Gruendung => f.gruendung
  }

  /** The text field selected by a non-numeric key. */
  function TextField(f: Firma, k: Key): string
    requires !k.IsNumeric()
  {
    match k
    case Name => f.name
    case Typ => f.typ
    case Region => f.region
    case Branche => f.branche
  }

  /** `daten.map(f => f.<k>)` for a text column. */
  function TextColumn(daten: seq<Firma>, k: Key): seq<string>
    requires !k.IsNumeric()
  {
    seq(|daten|, i requires 0 <= i < |daten| => TextField(daten[i], k))
  }

  /** Plain lexicographic order on character codes, standing in for the
      locale-dependent `localeCompare`: negative, zero or positive as `a`
      sorts before, together with or after `b`. */
  function StrCmp(a: string, b: string): (r: int)
    ensures -1 <= r <= 1
  {
    if a == [] && b == [] then 0
    else if a == [] then -1
    else if b == [] then 1
    else if a[0] < b[0] then -1
    else if a[0] > b[0] then 1
    else StrCmp(a[1..], b[1..])
  }

  lemma {:induction false} StrCmpZero(a: string, b: string)
    ensures StrCmp(a, b) == 0 <==> a == b
  {
    if a != [] && b != [] && a[0] == b[0] {
      StrCmpZero(a[1..], b[1..]);
      assert a == [a[0]] + a[1..] && b == [b[0]] + b[1..];
    }
  }

  lemma {:induction false} StrCmpAntisymmetric(a: string, b: string)
    ensures StrCmp(b, a) == -StrCmp(a, b)
  {
    if a != [] && b != [] && a[0] == b[0] {
      StrCmpAntisymmetric(a[1..], b[1..]);
    }
  }

  lemma {:induction false} StrCmpTransitive(a: string, b: string, c: string)
    requires StrCmp(a, b) <= 0 && StrCmp(b, c) <= 0
    ensures StrCmp(a, c) <= 0
  {
    if a != [] && b != [] && c != [] && a[0] == b[0] == c[0] {
      StrCmpTransitive(a[1..], b[1..], c[1..]);
    }
  }

  /** The comparator handed to `Array.prototype.sort`: zero when no key is
      set, the difference of the numbers for a numeric key and the string
      comparison otherwise, with the operands swapped for "desc". A positive
      result puts `a` after `b`. */
  function Compare(key: Option<Key>, order: Order, a: Firma, b: Firma): int
  {
    match key
    case None => 0
    case Some(k) =>
      if k.IsNumeric() then
        (if order == Asc then NumberField(a, k) - NumberField(b, k)
         else NumberField(b, k) - NumberField(a, k))
      else
        (if order == Asc then StrCmp(TextField(a, k), TextField(b, k))
         else StrCmp(TextField(b, k), TextField(a, k)))
  }

  /** Swapping the operands negates the comparator, so it never says both
      "a after b" and "b after a". */
  lemma CompareAntisymmetric(key: Option<Key>, order: Order, a: Firma, b: Firma)
    ensures Compare(key, order, b, a) == -Compare(key, order, a, b)
  {
    if key.Some? && !key.value.IsNumeric() {
      StrCmpAntisymmetric(TextField(a, key.value), TextField(b, key.value));
    }
  }

  /** "Not after" is transitive: with antisymmetry, the comparator is a total
      preorder, which is what a consistent sort comparator must be. */
  lemma CompareTransitive(key: Option<Key>, order: Order, a: Firma, b: Firma, c: Firma)
    requires Compare(key, order, a, b) <= 0 && Compare(key, order, b, c) <= 0
    ensures Compare(key, order, a, c) <= 0
  {
    if key.Some? && !key.value.IsNumeric() {
      var k := key.value;
      if order == Asc {
        StrCmpTransitive(TextField(a, k), TextField(b, k), TextField(c, k));
      } else {
        StrCmpTransitive(TextField(c, k), TextField(b, k), TextField(a, k));
      }
    }
  }

  /** Two records compare equal exactly when the sorted field is equal, in
      either direction; without a key all records compare equal. */
  lemma CompareZero(key: Option<Key>, order: Order, a: Firma, b: Firma)
    ensures key.None? ==> Compare(key, order, a, b) == 0
    ensures key.Some? && key.value.IsNumeric() ==>
      (Compare(key, order, a, b) == 0 <==> NumberField(a, key.value) == NumberField(b, key.value))
    ensures key.Some? && !key.value.IsNumeric() ==>
      (Compare(key, order, a, b) == 0 <==> TextField(a, key.value) == TextField(b, key.value))
  {
    if key.Some? && !key.value.IsNumeric() {
      StrCmpZero(TextField(a, key.value), TextField(b, key.value));
      StrCmpZero(TextField(b, key.value), TextField(a, key.value));
    }
  }
}
