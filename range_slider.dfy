/** The two-handle range control of src/components/RangeSlider.tsx: the
    normalisation `handleInput` applies to a value typed into one of the two
    number fields before the pair is handed to `onChange`. */
module RangeSlider {

  import opened Wrappers

  /** `Math.max(min, Math.min(max, v))`. */
  function Clamp(min: int, max: int, v: int): int
  {
    var upperCut := if v < max then v else max;
    if min > upperCut then min else upperCut
  }

  /** Endpoint `index` (0 for the lower, 1 for the upper) of a range. */
  function At(r: (int, int), index: int): int
    requires index == 0 || index == 1
  {
    if index == 0 then r.0 else r.1
  }

  /** The pair `handleInput(index, newValue)` emits for the current `value`. */
  function Normalised(value: (int, int), min: int, max: int, index: int, newValue: int): (int, int)
    requires index == 0 || index == 1
  {
    var c := Clamp(min, max, newValue);
    var updated := if index == 0 then (c, value.1) else (value.0, c);
    if updated.0 > updated.1 then (c, c) else updated
  }

  /** `handleInput`: copy `value` into a two-element array, overwrite the edited
      endpoint with the clamped value and, if the endpoints now cross, the
      other one too. */
  method HandleInput(value: (int, int), min: int, max: int, index: int, newValue: int)
    returns (emitted: (int, int))
    requires index == 0 || index == 1
    ensures emitted == Normalised(value, min, max, index, newValue)
    ensures emitted.0 <= emitted.1
  {
    var clamped := Clamp(min, max, newValue);
    var updated := new int[2];
    updated[0], updated[1] := value.0, value.1;
    updated[index] := clamped;
    if updated[0] > updated[1] {
      updated[1 - index] := clamped;
    }
    emitted := (updated[0], updated[1]);
  }

  /** For a non-empty domain the clamped value lies in it, and a value
      already in it is kept. */
  lemma ClampSpec(min: int, max: int, v: int)
    requires min <= max
    ensures min <= Clamp(min, max, v) <= max
    ensures min <= v <= max ==> Clamp(min, max, v) == v
    ensures v < min ==> Clamp(min, max, v) == min
    ensures v > max ==> Clamp(min, max, v) == max
  {
  }

  /** The edited endpoint becomes the clamped value. The other endpoint keeps
      its value unless that would leave lower > upper, in which case the
      range collapses to the clamped value. The result is always ordered. */
  lemma NormalisedSpec(value: (int, int), min: int, max: int, index: int, newValue: int)
    requires index == 0 || index == 1
    ensures var r := Normalised(value, min, max, index, newValue);
      var c := Clamp(min, max, newValue);
      At(r, index) == c &&
      r.0 <= r.1 &&
      (if (index == 0 && c > value.1) || (index == 1 && value.0 > c)
       then r == (c, c)
       else At(r, 1 - index) == At(value, 1 - index))
  {
  }

  /** A range inside a non-empty domain stays inside it. */
  lemma NormalisedWithinDomain(value: (int, int), min: int, max: int, index: int, newValue: int)
    requires index == 0 || index == 1
    requires min <= max && min <= value.0 <= max && min <= value.1 <= max
    ensures var r := Normalised(value, min, max, index, newValue);
      min <= r.0 <= r.1 <= max
  {
    ClampSpec(min, max, newValue);
  }

  /** Entering the same value in the same field twice changes nothing the
      second time. */
  lemma NormalisedIdempotent(value: (int, int), min: int, max: int, index: int, newValue: int)
    requires index == 0 || index == 1
    ensures var once := Normalised(value, min, max, index, newValue);
      Normalised(once, min, max, index, newValue) == once
  {
  }

  /** `parseInt(text) || fallback`: an unparsable entry (NaN) or 0 is falsy
      and gives the fallback. */
  function TextValue(parsed: Option<int>, fallback: int): int
  {
    if parsed.None? || parsed.value == 0 then fallback else parsed.value
  }

  /** The lower number field: falls back to `min`. */
  function LowerFieldInput(value: (int, int), min: int, max: int, parsed: Option<int>): (int, int)
  {
    Normalised(value, min, max, 0, TextValue(parsed, min))
  }

  /** The upper number field: falls back to `max`. */
  function UpperFieldInput(value: (int, int), min: int, max: int, parsed: Option<int>): (int, int)
  {
    Normalised(value, min, max, 1, TextValue(parsed, max))
  }

  /** Clearing a field, or typing 0 into it, moves that endpoint to the end of
      the domain and leaves the other endpoint where it was; a non-zero
      number is normalised like any other input. */
  lemma FieldFallback(value: (int, int), min: int, max: int, parsed: Option<int>)
    requires min <= max && value.0 <= max && min <= value.1
    ensures parsed.None? || parsed == Some(0) ==>
      LowerFieldInput(value, min, max, parsed) == (min, value.1) &&
      UpperFieldInput(value, min, max, parsed) == (value.0, max)
    ensures parsed.Some? && parsed.value != 0 ==>
      LowerFieldInput(value, min, max, parsed) == Normalised(value, min, max, 0, parsed.value) &&
      UpperFieldInput(value, min, max, parsed) == Normalised(value, min, max, 1, parsed.value)
  {
  }
}
