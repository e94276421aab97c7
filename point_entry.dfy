/** The point-entry field: a text box with `-` and `+` buttons that checks
    what is typed, emits only fully valid values, and on blur normalises the
    text to a value within the bounds and on the step grid. */
module PointEntry {

  import opened Nullable
  import opened DecimalText

  /** The internal error the field shows; each carries the number its message
      quotes. */
  datatype InputError =
    | EmptyValue
    | BelowMin(min: int)
    | AboveMax(max: int)
    | NotMultipleOfStep(step: int)

  /** What the checks make of a typed text: a value to emit, or an error. */
  datatype Verdict = Emit(value: int) | Reject(error: InputError)

  /** Text the field takes into its state at all: empty, a lone minus sign,
      or an optionally signed run of digits. Anything else is ignored. */
  predicate Accepted(text: string) {
    text == "" || text == "-" || IsIntegerText(text)
  }

  /** The checks on accepted text, in order: empty, below `min`, above `max`,
      not a multiple of `step`. The first that fails decides the error. */
  function CheckText(text: string, min: int, max: int, step: int): (r: Verdict)
    requires step > 0
    requires Accepted(text)
    ensures r == Reject(EmptyValue) <==> text == "" || text == "-"
    ensures r == Reject(BelowMin(min)) <==> ParseInt(text).Some? && ParseInt(text).value < min
    ensures r == Reject(AboveMax(max)) <==>
      ParseInt(text).Some? && min <= ParseInt(text).value && ParseInt(text).value > max
    ensures r == Reject(NotMultipleOfStep(step)) <==>
      ParseInt(text).Some? && min <= ParseInt(text).value <= max && ParseInt(text).value % step != 0
    ensures r.Emit? <==>
      ParseInt(text).Some? && min <= ParseInt(text).value <= max && ParseInt(text).value % step == 0
    ensures r.Emit? ==> ParseInt(text) == Some(r.value)
  {
    if text == "" || text == "-" then Reject(EmptyValue)
    else
      var n := ParseInt(text).value;
      if n < min then Reject(BelowMin(min))
      else if n > max then Reject(AboveMax(max))
      else if n % step != 0 then Reject(NotMultipleOfStep(step))
      else Emit(n)
  }

  /** `Math.max(lo, Math.min(hi, n))`. */
  function Clamp(n: int, lo: int, hi: int): (r: int)
    ensures lo <= hi ==> lo <= r <= hi
    ensures lo <= n <= hi ==> r == n
    ensures lo <= hi && n < lo ==> r == lo
    ensures lo <= hi && n > hi ==> r == hi
    ensures lo > hi ==> r == lo
  {
    var m := if hi < n then hi else n;
    if lo > m then lo else m
  }

  /** `Math.round(v / step) * step`: the multiple of `step` nearest to `v`,
      halves rounded up. */
  function RoundToStep(v: int, step: int): (r: int)
    requires step > 0
    ensures r % step == 0
    ensures -step < 2 * (r - v) <= step
  {
    var q := (2 * v + step) / (2 * step);
    MultipleMod(q, step);
    q * step
  }

  lemma MultipleMod(q: int, s: int)
    requires s > 0
    ensures (q * s) % s == 0
  {
    var a := q * s;
    var d, m := a / s, a % s;
    assert a == d * s + m && 0 <= m < s;
    ProductDifference(q, d, s);
    assert (q - d) * s == m;
    if q - d > 0 {
      MulAtLeast(q - d, s);
    } else if q - d < 0 {
      MulAtLeast(d - q, s);
      ProductDifference(d, q, s);
    }
  }

  lemma ProductDifference(p: int, q: int, s: int)
    ensures p * s - q * s == (p - q) * s
  {
  }

  lemma {:induction false} MulAtLeast(k: int, s: int)
    requires k >= 1 && s > 0
    ensures k * s >= s
    decreases k
  {
    if k > 1 {
      MulAtLeast(k - 1, s);
      ProductDifference(k, k - 1, s);
    }
  }

  /** Two distinct multiples of `s` are at least `s` apart. */
  lemma MultiplesApart(a: int, b: int, s: int)
    requires s > 0 && a % s == 0 && b % s == 0 && a < b
    ensures b - a >= s
  {
    var qa, qb := a / s, b / s;
    assert a == qa * s && b == qb * s;
    ProductDifference(qb, qa, s);
    if qb - qa >= 1 {
      MulAtLeast(qb - qa, s);
    } else if qb - qa < 0 {
      MulAtLeast(qa - qb, s);
      ProductDifference(qa, qb, s);
    }
  }

  function Abs(x: int): int {
    if x < 0 then -x else x
  }

  /** No multiple of `step` is closer to `v` than the rounded value. */
  lemma RoundIsNearest(v: int, step: int, m: int)
    requires step > 0 && m % step == 0
    ensures Abs(v - RoundToStep(v, step)) <= Abs(v - m)
  {
    var r := RoundToStep(v, step);
    if m < r {
      MultiplesApart(m, r, step);
    } else if r < m {
      MultiplesApart(r, m, step);
    }
  }

  /** Clamping to bounds on the step grid and then rounding stays within the
      bounds. */
  lemma ClampThenRoundInBounds(n: int, min: int, max: int, step: int)
    requires step > 0 && min <= max && min % step == 0 && max % step == 0
    ensures min <= RoundToStep(Clamp(n, min, max), step) <= max
  {
    var c := Clamp(n, min, max);
    var r := RoundToStep(c, step);
    if r < min {
      MultiplesApart(r, min, step);
    }
    if r > max {
      MultiplesApart(max, r, step);
    }
  }

  /** The value the field settles on when it loses focus holding text `text`
      (always accepted text): 0 for `''` or `'-'`, otherwise the number
      clamped to [min, max] and rounded to the nearest multiple of `step`. */
  function BlurValue(text: string, min: int, max: int, step: int): (r: int)
    requires step > 0
    requires Accepted(text)
    ensures r % step == 0
    ensures text == "" || text == "-" ==> r == 0
    ensures ParseInt(text).Some? ==> -step < 2 * (r - Clamp(ParseInt(text).value, min, max)) <= step
  {
    match ParseInt(text)
    case None => 0
    case Some(n) => RoundToStep(Clamp(n, min, max), step)
  }

  /** When the bounds lie on the step grid, a blurred number stays within
      them; `''` and `'-'` give 0, which may lie outside them. */
  lemma BlurValueInBounds(text: string, min: int, max: int, step: int)
    requires step > 0 && min <= max && min % step == 0 && max % step == 0
    requires Accepted(text)
    ensures IsIntegerText(text) ==> min <= BlurValue(text, min, max, step) <= max
    ensures text == "" || text == "-" ==> BlurValue(text, min, max, step) == 0
  {
    if ParseInt(text).Some? {
      ClampThenRoundInBounds(ParseInt(text).value, min, max, step);
    }
  }

  /** With the bounds and step of the round-points fields (-25, 125, 5), every
      blurred value, the empty case included, is a multiple of 5 in [-25, 125]. */
  lemma DefaultBlurInRange(text: string)
    requires Accepted(text)
    ensures -25 <= BlurValue(text, -25, 125, 5) <= 125
    ensures BlurValue(text, -25, 125, 5) % 5 == 0
  {
    BlurValueInBounds(text, -25, 125, 5);
  }

  /** `Math.min(value + step, max)`. */
  function StepUp(value: int, step: int, max: int): (r: int)
    requires step > 0
    ensures r <= max && r <= value + step
    ensures r == value + step || r == max
    ensures value >= max ==> r == max
    ensures value < max ==> value < r
  {
    if value + step < max then value + step else max
  }

  /** `Math.max(value - step, min)`. */
  function StepDown(value: int, step: int, min: int): (r: int)
    requires step > 0
    ensures r >= min && r >= value - step
    ensures r == value - step || r == min
    ensures value <= min ==> r == min
    ensures value > min ==> r < value
  {
    if value - step > min then value - step else min
  }

  /** The field's state: its bounds and step, the value its owner passes in,
      the text shown, the internal error, and the values passed to `onChange`,
      oldest first. */
  class NumberInput {
    const min: int
    const max: int
    const step: int
    var value: int
    var inputValue: string
    var inputError: Option<InputError>
    var emitted: seq<int>

    /** The step is positive and the shown text is always one the field
        accepts: it is only ever written with accepted keystrokes or with an
        integer's text. */
    ghost predicate Valid()
      reads this
    {
      step > 0 && Accepted(inputValue)
    }

    /** A new field shows its value's text and no error. */
    constructor (value: int, min: int := -25, max: int := 125, step: int := 5)
      requires step > 0
      ensures Valid()
      ensures this.min == min && this.max == max && this.step == step
      ensures this.value == value && inputValue == IntToString(value)
      ensures inputError == None && emitted == []
    {
      this.min, this.max, this.step := min, max, step;
      this.value := value;
      IntToStringRoundTrip(value);
      inputValue := IntToString(value);
      inputError := None;
      emitted := [];
    }

    /** The owner passes a value in; when it differs from the current one the
        text is rewritten to show it. */
    method ReceiveValue(v: int)
      requires Valid()
      modifies this`value, this`inputValue
      ensures Valid()
      ensures value == v
      ensures inputValue == if v == old(value) then old(inputValue) else IntToString(v)
    {
      if v != value {
        value := v;
        IntToStringRoundTrip(v);
        inputValue := IntToString(v);
      }
    }

    /** A keystroke: accepted text is shown, checked in order, and emitted only
        when every check passes. */
    method HandleInputChange(text: string)
      requires Valid()
      modifies this`inputValue, this`inputError, this`emitted
      ensures Valid()
      ensures !Accepted(text) ==>
        inputValue == old(inputValue) && inputError == old(inputError) && emitted == old(emitted)
      ensures Accepted(text) ==> inputValue == text
      ensures Accepted(text) && CheckText(text, min, max, step).Reject? ==>
        inputError == Some(CheckText(text, min, max, step).error) && emitted == old(emitted)
      ensures Accepted(text) && CheckText(text, min, max, step).Emit? ==>
        inputError == None && emitted == old(emitted) + [CheckText(text, min, max, step).value]
      ensures emitted != old(emitted) ==>
        |emitted| == |old(emitted)| + 1 && inputError == None &&
        min <= emitted[|emitted| - 1] <= max && emitted[|emitted| - 1] % step == 0
    {
      if text == "" || text == "-" || IsIntegerText(text) {
        inputValue := text;
        if text == "" || text == "-" {
          inputError := Some(EmptyValue);
          return;
        }
        var numValue := ParseInt(text).value;
        if numValue < min {
          inputError := Some(BelowMin(min));
          return;
        }
        if numValue > max {
          inputError := Some(AboveMax(max));
          return;
        }
        if numValue % step != 0 {
          inputError := Some(NotMultipleOfStep(step));
          return;
        }
        inputError := None;
        emitted := emitted + [numValue];
      }
    }

    /** Losing focus: `''` or `'-'` becomes 0, a number is clamped and
        rounded; the result is shown, emitted, and the error cleared. */
    method HandleBlur()
      requires Valid()
      modifies this`inputValue, this`inputError, this`emitted
      ensures Valid()
      ensures emitted == old(emitted) + [BlurValue(old(inputValue), min, max, step)]
      ensures inputValue == IntToString(BlurValue(old(inputValue), min, max, step))
      ensures inputError == None
    {
      if inputValue == "" || inputValue == "-" {
        assert IntToString(0) == "0";
        inputValue := "0";
        emitted := emitted + [0];
        inputError := None;
        return;
      }
      // The text is digits with an optional sign, so parseInt cannot give NaN.
      var numValue := ParseInt(inputValue).value;
      var validValue := if max < numValue then max else numValue;
      validValue := if min > validValue then min else validValue;
      validValue := RoundToStep(validValue, step);
      IntToStringRoundTrip(validValue);
      inputValue := IntToString(validValue);
      emitted := emitted + [validValue];
      inputError := None;
    }

    /** The `+` button. */
    method Increment()
      requires Valid()
      modifies this`emitted
      ensures emitted == old(emitted) + [StepUp(value, step, max)]
    {
      var newValue := if value + step < max then value + step else max;
      emitted := emitted + [newValue];
    }

    /** The `-` button. */
    method Decrement()
      requires Valid()
      modifies this`emitted
      ensures emitted == old(emitted) + [StepDown(value, step, min)]
    {
      var newValue := if value - step > min then value - step else min;
      emitted := emitted + [newValue];
    }
  }

}
