/** The numeric field of the form: on every keystroke it either passes a
    value on to the calculator or shows an error and passes nothing; on
    losing focus it can only add an error. `parseFloat` is not modelled
    character by character: each entry carries the number the browser reads
    from its text. */
module NumericInput {
  import opened Types

  /** The accepted closed range of a field. */
  datatype Bounds = Bounds(min: real, max: real)

  /** The range a field gets when its caller passes none. */
  const DefaultBounds: Bounds := Bounds(0.0, 99999.0)

  /** What `parseFloat` makes of a text. */
  datatype ParsedNumber = NotANumber | Finite(value: real) | PlusInfinity | MinusInfinity

  /** A text as typed, with its `parseFloat` reading. */
  datatype Entry = Entry(text: string, parsed: ParsedNumber)

  /** The field's error messages, one constructor per message. */
  datatype FieldError =
    | NonNumeric                  // "Non-numeric input detected"
    | BelowMinimum(min: real)     // "Value below biological minimum of min"
    | AboveMaximum(max: real)     // "Value exceeds system threshold of max"
    | CalculationPaused           // "Calculation paused: Invalid numeric data type"
    | OutsideRange(value: ParsedNumber, min: real, max: real)  // "Input rejected: ... outside the allowed range"

  /** The field's own state: the text it shows and the error it displays. */
  datatype FieldState = FieldState(entry: Entry, error: Option<FieldError>)

  /** What a keystroke does: the field's new state and the value, if any,
      handed to `onChange`. */
  datatype ChangeOutcome = ChangeOutcome(field: FieldState, propagated: Option<real>)

  /** The characters `String.prototype.trim` removes: white space and line
      terminators (section 12.2 and 12.3 of ECMAScript). */
  predicate IsTrimmable(c: char) {
    || c == '\U{0009}' || c == '\U{000B}' || c == '\U{000C}' || c == ' '
    || c == '\U{00A0}' || c == '\U{FEFF}'
    || c == '\U{000A}' || c == '\U{000D}' || c == '\U{2028}' || c == '\U{2029}'
    || c == '\U{1680}' || ('\U{2000}' <= c <= '\U{200A}')
    || c == '\U{202F}' || c == '\U{205F}' || c == '\U{3000}'
  }

  /** `text.trim() === ""`. */
  predicate IsBlank(text: string) {
    forall i :: 0 <= i < |text| ==> IsTrimmable(text[i])
  }

  /** The parsed number lies below the lower bound (`numeric < min`). */
  predicate BelowMin(p: ParsedNumber, b: Bounds) {
    p.MinusInfinity? || (p.Finite? && p.value < b.min)
  }

  /** The parsed number lies above the upper bound (`numeric > max`). */
  predicate AboveMax(p: ParsedNumber, b: Bounds) {
    p.PlusInfinity? || (p.Finite? && p.value > b.max)
  }

  /** The entries the field lets through: a blank text, or a number inside
      the bounds. */
  predicate Accepts(b: Bounds, e: Entry) {
    IsBlank(e.text) || (e.parsed.Finite? && b.min <= e.parsed.value <= b.max)
  }

  /** `handleChange`: the text is always taken over; a blank text clears the
      error and passes 0; otherwise an unreadable, too small or too large
      number sets the matching error and passes nothing, and an in-range
      number clears the error and passes that number. */
  function HandleChange(b: Bounds, e: Entry): (r: ChangeOutcome)
    ensures r.field.entry == e
    ensures r.propagated.Some? <==> Accepts(b, e)
    ensures r.field.error.None? <==> Accepts(b, e)
    ensures IsBlank(e.text) ==> r.propagated == Some(0.0)
    ensures !IsBlank(e.text) && e.parsed.NotANumber? ==> r.field.error == Some(NonNumeric)
    ensures !IsBlank(e.text) && BelowMin(e.parsed, b) ==> r.field.error == Some(BelowMinimum(b.min))
    ensures !IsBlank(e.text) && !BelowMin(e.parsed, b) && AboveMax(e.parsed, b) ==> r.field.error == Some(AboveMaximum(b.max))
    ensures !IsBlank(e.text) && r.propagated.Some? ==> r.propagated == Some(e.parsed.value)
  {
    if IsBlank(e.text) then ChangeOutcome(FieldState(e, None), Some(0.0))
    else
      match e.parsed
      case NotANumber => ChangeOutcome(FieldState(e, Some(NonNumeric)), None)
      case MinusInfinity => ChangeOutcome(FieldState(e, Some(BelowMinimum(b.min))), None)
      case PlusInfinity => ChangeOutcome(FieldState(e, Some(AboveMaximum(b.max))), None)
      case Finite(v) =>
        if v < b.min then ChangeOutcome(FieldState(e, Some(BelowMinimum(b.min))), None)
        else if v > b.max then ChangeOutcome(FieldState(e, Some(AboveMaximum(b.max))), None)
        else ChangeOutcome(FieldState(e, None), Some(v))
  }

  /** Whatever reaches the calculator is 0, from a blank text, or a number
      inside the bounds. */
  lemma PropagatedInRange(b: Bounds, e: Entry)
    ensures HandleChange(b, e).propagated.Some? ==>
      var v := HandleChange(b, e).propagated.value;
      v == 0.0 || b.min <= v <= b.max
  {
  }

  /** `handleBlur` as written: an unreadable text gets "calculation paused",
      an out-of-range number gets "input rejected", and otherwise the error
      stays as it was. It never passes a value on. */
  function HandleBlur(b: Bounds, f: FieldState): (r: FieldState)
    ensures r.entry == f.entry
    ensures f.error.Some? ==> r.error.Some?
    ensures r.error != f.error ==>
      f.entry.parsed.NotANumber? || BelowMin(f.entry.parsed, b) || AboveMax(f.entry.parsed, b)
    ensures f.entry.parsed.NotANumber? || BelowMin(f.entry.parsed, b) || AboveMax(f.entry.parsed, b) ==>
      r.error.Some?
    ensures f.entry.parsed.NotANumber? ==> r.error == Some(CalculationPaused)
    ensures !f.entry.parsed.NotANumber? && (BelowMin(f.entry.parsed, b) || AboveMax(f.entry.parsed, b)) ==>
      r.error == Some(OutsideRange(f.entry.parsed, b.min, b.max))
  {
    if f.entry.parsed.NotANumber? then f.(error := Some(CalculationPaused))
    else if BelowMin(f.entry.parsed, b) || AboveMax(f.entry.parsed, b) then
      f.(error := Some(OutsideRange(f.entry.parsed, b.min, b.max)))
    else f
  }

  /** A field is consistent when it shows an error exactly when its text
      would be refused. */
  predicate Consistent(b: Bounds, f: FieldState) {
    f.error.Some? <==> !Accepts(b, f.entry)
  }

  /** The field as first rendered for a value of 0: an empty text, which
      `parseFloat` reads as NaN, and no error. */
  const UntouchedField: FieldState := FieldState(Entry("", NotANumber), None)

  lemma UntouchedFieldConsistent(b: Bounds)
    ensures Consistent(b, UntouchedField)
  {
  }

  /** Every keystroke leaves the field consistent, whatever it showed before. */
  lemma ChangeKeepsConsistent(b: Bounds, e: Entry)
    ensures Consistent(b, HandleChange(b, e).field)
  {
  }

  /** Focusing and leaving an untouched field flags it, although its blank
      text is accepted and its value 0 already reached the calculator. */
  lemma BlurFlagsBlankField()
    ensures Consistent(DefaultBounds, UntouchedField)
    ensures HandleBlur(DefaultBounds, UntouchedField).error == Some(CalculationPaused)
    ensures !Consistent(DefaultBounds, HandleBlur(DefaultBounds, UntouchedField))
  {
    assert IsBlank(UntouchedField.entry.text);
  }

  /** `handleBlur` with the blank case `handleChange` already treats as 0:
      a blank text is left alone. */
  function HandleBlurCorrected(b: Bounds, f: FieldState): (r: FieldState)
    ensures r.entry == f.entry
    ensures f.error.Some? ==> r.error.Some?
    ensures IsBlank(f.entry.text) ==> r == f
    ensures !IsBlank(f.entry.text) ==> r == HandleBlur(b, f)
  {
    if IsBlank(f.entry.text) then f else HandleBlur(b, f)
  }

  /** The corrected blur keeps a consistent field consistent. */
  lemma BlurCorrectedKeepsConsistent(b: Bounds, f: FieldState)
    requires Consistent(b, f)
    ensures Consistent(b, HandleBlurCorrected(b, f))
    ensures HandleBlurCorrected(b, f).error.Some? == f.error.Some?
  {
  }

  /** A sequence of keystrokes and focus losses on one field. */
  datatype FieldEvent = Typed(entry: Entry) | Blurred

  /** One event on the field, blur as corrected. */
  function FieldStep(b: Bounds, f: FieldState, ev: FieldEvent): FieldState {
    match ev
    case Typed(e) => HandleChange(b, e).field
    case Blurred => HandleBlurCorrected(b, f)
  }

  /** The field's state after a run of events. */
  function RunField(b: Bounds, f: FieldState, events: seq<FieldEvent>): FieldState
    decreases |events|
  {
    if |events| == 0 then f else RunField(b, FieldStep(b, f, events[0]), events[1..])
  }

  /** From a consistent state, in particular the untouched one, whatever the
      user does, the corrected field shows an error exactly when its text
      would be refused. */
  lemma {:induction false} RunFieldConsistent(b: Bounds, f: FieldState, events: seq<FieldEvent>)
    requires Consistent(b, f)
    ensures Consistent(b, RunField(b, f, events))
    decreases |events|
  {
    if |events| > 0 {
      match events[0] {
        case Typed(e) => ChangeKeepsConsistent(b, e);
        case Blurred => BlurCorrectedKeepsConsistent(b, f);
      }
      RunFieldConsistent(b, FieldStep(b, f, events[0]), events[1..]);
    }
  }
}
