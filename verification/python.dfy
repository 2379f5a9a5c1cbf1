/**
 * The slice of Python's run-time behaviour the autoencoder relies on:
 * dynamically typed argument values, the exceptions it raises, `+` on
 * values, `%d` formatting, `in` on strings and list indexing.
 */
module Python {

  datatype Option<+T> = None | Some(value: T)

  /** Why a `ValueError` was raised: one tag per message in the source. */
  datatype Reason =
    | UnknownShape         // a static input dimension is `None`
    | HiddenOutputsLength  // `len(hidden_outputs) != layer_num`
    | ModeNotBool          // `is_encode` is not a `bool`
    | NewSizeMissing       // decoding without `new_size`
    | FilterSizesLength    // the `filter_sizes` length check
    | IndexTooLarge        // `get_encoded` index above `layer_num`
    | ChannelMismatch      // `conv2d`: kernel input channels differ from the image's

  datatype Error = ValueError(reason: Reason) | TypeError | IndexError

  /** The outcome of a call that may raise. */
  datatype Result<+T> = Ok(value: T) | Err(error: Error)

  /** An argument whose Python type is checked at run time. */
  datatype Value = NoneValue | Bool(b: bool) | Int(n: int) | Text(s: string)

  /** `bool` is a subclass of `int`, so both take part in arithmetic. */
  predicate IsNumber(v: Value) {
    v.Bool? || v.Int?
  }

  function AsInt(v: Value): int
    requires IsNumber(v)
  {
    if v.Bool? then (if v.b then 1 else 0) else v.n
  }

  /** The binary `+` operator: numbers add, strings concatenate, any mix raises. */
  function Add(a: Value, b: Value): (r: Result<Value>)
    ensures r.Ok? <==> (IsNumber(a) && IsNumber(b)) || (a.Text? && b.Text?)
    ensures a.Text? && IsNumber(b) ==> r == Err(TypeError)
    ensures r.Ok? && a.Text? ==> r.value == Text(a.s + b.s)
  {
    if IsNumber(a) && IsNumber(b) then Ok(Int(AsInt(a) + AsInt(b)))
    else if a.Text? && b.Text? then Ok(Text(a.s + b.s))
    else Err(TypeError)
  }

  predicate IsDigit(c: char) {
    '0' <= c <= '9'
  }

  function DigitChar(d: nat): (c: char)
    requires d < 10
    ensures IsDigit(c)
  {
    "0123456789"[d]
  }

  function DigitValue(c: char): nat
    requires IsDigit(c)
  {
    (c as int) - ('0' as int)
  }

  /** Decimal digits of a natural number, most significant first. */
  function Digits(n: nat): (s: string)
    ensures 1 <= |s|
    ensures forall k :: 0 <= k < |s| ==> IsDigit(s[k])
    ensures 1 < |s| ==> s[0] != '0'
    decreases n
  {
    if n < 10 then [DigitChar(n)] else Digits(n / 10) + [DigitChar(n % 10)]
  }

  /** `'%d' % n`. */
  function Decimal(n: int): string {
    if n < 0 then "-" + Digits(-n) else Digits(n)
  }

  /** `int(s)` on a string of decimal digits. */
  function DigitsValue(s: string): nat
    requires forall k :: 0 <= k < |s| ==> IsDigit(s[k])
  {
    if |s| == 0 then 0 else DigitsValue(s[..|s| - 1]) * 10 + DigitValue(s[|s| - 1])
  }

  /** Reading the digits back gives the number they were written from. */
  lemma {:induction false} DigitsRoundTrip(n: nat)
    ensures DigitsValue(Digits(n)) == n
    decreases n
  {
    var s := Digits(n);
    if n >= 10 {
      assert s[..|s| - 1] == Digits(n / 10);
      DigitsRoundTrip(n / 10);
    }
  }

  /** A formatted integer starts with a minus sign exactly when it is negative. */
  lemma DecimalSign(n: int)
    ensures |Decimal(n)| >= 1
    ensures Decimal(n)[0] == '-' <==> n < 0
  {
    if n >= 0 {
      assert IsDigit(Digits(n)[0]);
    }
  }

  lemma DigitsInjective(x: nat, y: nat)
    requires Digits(x) == Digits(y)
    ensures x == y
  {
    DigitsRoundTrip(x);
    DigitsRoundTrip(y);
  }

  /** Distinct integers format to distinct strings. */
  lemma DecimalInjective(a: int, b: int)
    requires Decimal(a) == Decimal(b)
    ensures a == b
  {
    DecimalSign(a);
    DecimalSign(b);
    if a < 0 {
      NegativeDigits(a);
      NegativeDigits(b);
      DigitsInjective(-a, -b);
    } else {
      DigitsInjective(a, b);
    }
  }

  lemma NegativeDigits(n: int)
    requires n < 0
    ensures Decimal(n)[1..] == Digits(-n)
  {
  }

  /** Appending a digit to a positive number's digits multiplies it by ten and adds the digit. */
  lemma DigitsAppend(k: nat, d: nat)
    requires 1 <= k && d < 10
    ensures Digits(10 * k + d) == Digits(k) + [DigitChar(d)]
  {
    assert (10 * k + d) / 10 == k;
    assert (10 * k + d) % 10 == d;
  }

  predicate OccursAt(hay: string, needle: string, i: int) {
    0 <= i && i + |needle| <= |hay| && hay[i..i + |needle|] == needle
  }

  /** `needle in hay` on strings: a substring test. */
  predicate Contains(hay: string, needle: string) {
    exists i | 0 <= i <= |hay| - |needle| :: OccursAt(hay, needle, i)
  }

  /** A string contains every prefix of every piece it is assembled from. */
  lemma ContainsPrefixOfMiddle(front: string, needle: string, extra: string, back: string)
    ensures Contains(front + (needle + extra) + back, needle)
  {
    var hay := front + (needle + extra) + back;
    assert hay[|front|..|front| + |needle|] == needle;
    assert OccursAt(hay, needle, |front|);
  }

  /** `s[k]` on a list: negative indices count from the end, anything else out of range raises. */
  function Index<T>(s: seq<T>, k: int): (r: Result<T>)
    ensures r.Ok? <==> -|s| <= k < |s|
    ensures 0 <= k < |s| ==> r == Ok(s[k])
    ensures -|s| <= k < 0 ==> r == Ok(s[|s| + k])
    ensures r.Err? ==> r.error == IndexError
  {
    if 0 <= k < |s| then Ok(s[k])
    else if -|s| <= k < 0 then Ok(s[|s| + k])
    else Err(IndexError)
  }
}
