/**
 * The rules every registration form of both front ends shares: JavaScript's
 * `parseInt`, the handler of the seed field, the title and name length
 * checks, the range checks behind the timescale and sample fields, `clamp`,
 * and the resizing of a react-hook-form field array.
 */
module FormValidation {
  import opened Wrappers
  import opened GoStrconv

  /** The `validated` indicator of a PatternFly input. */
  datatype Validated = Default | Success | Warning | Error

  /** A numeric form field (`number | ''`), which may also hold NaN. */
  datatype NumberField = Blank | NaN | Num(v: real)

  /** The largest seed the forms accept (2^31 - 1). */
  const MaxSeed: int := 2147483647
  /** The longest workload title, workload name or session id. */
  const MaxNameLength: nat := 36

  // ---------------------------------------------------------------------
  // Number.parseInt(s, 10)
  // ---------------------------------------------------------------------

  /** The white space `parseInt` skips before the number. */
  predicate IsJsSpace(c: char)
  {
    c == ' ' || c == '\t' || c == '\n' || c == '\r' || c == '\U{000B}' || c == '\U{000C}'
    || c == '\U{00A0}' || c == '\U{FEFF}' || c == '\U{1680}' || ('\U{2000}' <= c <= '\U{200A}')
    || c == '\U{2028}' || c == '\U{2029}' || c == '\U{202F}' || c == '\U{205F}' || c == '\U{3000}'
  }

  /**
   * Number.parseInt(s, 10): skip leading white space, read an optional sign,
   * then the longest run of digits; no digit at all gives NaN, written None.
   */
  function JsParseInt(s: string): Option<int>
  {
    if s != [] && IsJsSpace(s[0]) then JsParseInt(s[1..])
    else if s != [] && s[0] == '-' then Negated(LeadingNumber(s[1..]))
    else if s != [] && s[0] == '+' then LeadingNumber(s[1..])
    else LeadingNumber(s)
  }

  /** The number read after a minus sign; NaN stays NaN. */
  function Negated(r: Option<int>): Option<int>
  {
    if r.Some? then Some(-r.value) else None
  }

  /** The run of digits s starts with, as a number; NaN when s does not start with a digit. */
  function LeadingNumber(s: string): Option<int>
  {
    if s != [] && IsDigit(s[0]) then Some(DigitsRead(s, 0)) else None
  }

  /** The decimal number acc followed by the digits s starts with. */
  function DigitsRead(s: string, acc: nat): nat
  {
    if s != [] && IsDigit(s[0]) then DigitsRead(s[1..], 10 * acc + DigitValue(s[0])) else acc
  }

  /** One more digit at the end of the run shifts what is read by one decimal place. */
  lemma {:induction false} DigitsReadSnoc(d: string, c: char, tail: string, acc: nat)
    requires AllDigits(d) && IsDigit(c)
    requires tail == [] || !IsDigit(tail[0])
    ensures DigitsRead(d + [c] + tail, acc) == 10 * DigitsRead(d + tail, acc) + DigitValue(c)
  {
    if d == [] {
      assert d + [c] + tail == [c] + tail;
      assert ([c] + tail)[1..] == tail;
      assert d + tail == tail;
    } else {
      assert (d + [c] + tail)[1..] == d[1..] + [c] + tail;
      assert (d + tail)[1..] == d[1..] + tail;
      DigitsReadSnoc(d[1..], c, tail, 10 * acc + DigitValue(d[0]));
    }
  }

  /** The digits of n, followed by anything but a digit, read back as n. */
  lemma {:induction false} DigitsReadNatToDigits(n: nat, tail: string)
    requires tail == [] || !IsDigit(tail[0])
    ensures DigitsRead(NatToDigits(n) + tail, 0) == n
  {
    if n < 10 {
      assert (NatToDigits(n) + tail)[1..] == tail;
    } else {
      var c := DigitChar(n % 10);
      assert NatToDigits(n) + tail == NatToDigits(n / 10) + [c] + tail;
      DigitsReadSnoc(NatToDigits(n / 10), c, tail, 0);
      DigitsReadNatToDigits(n / 10, tail);
    }
  }

  /** parseInt reads a number's decimal spelling back, ignoring what follows it. */
  lemma JsParseIntReadsDigits(n: nat, tail: string)
    requires tail == [] || !IsDigit(tail[0])
    ensures JsParseInt(NatToDigits(n) + tail) == Some(n)
  {
    var s := NatToDigits(n) + tail;
    assert s[0] == NatToDigits(n)[0];
    DigitsReadNatToDigits(n, tail);
  }

  /** parseInt reads a minus sign in front of the digits. */
  lemma JsParseIntNegative(n: nat)
    ensures JsParseInt("-" + NatToDigits(n)) == Some(-(n as int))
  {
    var s := "-" + NatToDigits(n);
    assert s[1..] == NatToDigits(n) + [];
    DigitsReadNatToDigits(n, []);
  }

  /** Text without any digit is NaN. */
  lemma {:induction false} JsParseIntWithoutDigits(s: string)
    requires forall i :: 0 <= i < |s| ==> !IsDigit(s[i])
    ensures JsParseInt(s) == None
  {
    if s != [] && IsJsSpace(s[0]) {
      JsParseIntWithoutDigits(s[1..]);
    } else if s != [] && (s[0] == '-' || s[0] == '+') && |s| > 1 {
      assert !IsDigit(s[1..][0]);
    }
  }

  // ---------------------------------------------------------------------
  // The seed field
  // ---------------------------------------------------------------------

  /** The regular expression /[0-9]/. */
  predicate HasDigit(s: string)
  {
    exists i :: 0 <= i < |s| && IsDigit(s[i])
  }

  /** The seed field's text and its validity flag. */
  datatype Seed = Seed(text: string, valid: bool)

  /** The text of a valid, non-empty seed is the canonical decimal of a number in [0, MaxSeed]. */
  predicate CanonicalSeed(text: string)
  {
    JsParseInt(text).Some? && 0 <= JsParseInt(text).value <= MaxSeed
    && text == Itoa(JsParseInt(text).value)
  }

  /**
   * The handler of the seed field: text without a digit is rejected and
   * cleared, the empty text is accepted, text parseInt cannot read clears the
   * field and keeps the flag, a number outside [0, 2^31 - 1] is rejected and
   * kept as typed, and any other number is stored as its canonical decimal.
   */
  function SeedChanged(current: Seed, input: string): (next: Seed)
    ensures !HasDigit(input) ==> next == Seed("", input == "")
    ensures next.valid && next.text != "" ==> CanonicalSeed(next.text)
    ensures !next.valid ==> next.text == "" || next.text == input
    ensures next.text != "" ==> next.text == input || next.valid
  {
    var validSeed := HasDigit(input) || input == "";
    if !validSeed || input == "" then Seed("", validSeed)
    else match JsParseInt(input)
      case None => Seed("", current.valid)
      case Some(n) =>
        if n > MaxSeed || n < 0 then Seed(input, false)
        else
          JsParseIntReadsDigits(n, "");
          assert NatToDigits(n) + "" == NatToDigits(n);
          Seed(Itoa(n), true)
  }

  /** A canonical decimal in range is accepted and stored unchanged. */
  lemma SeedChangedAcceptsCanonical(current: Seed, n: int)
    requires 0 <= n <= MaxSeed
    ensures SeedChanged(current, Itoa(n)) == Seed(Itoa(n), true)
  {
    JsParseIntReadsDigits(n, "");
    assert NatToDigits(n) + "" == NatToDigits(n);
    assert IsDigit(Itoa(n)[0]);
  }

  /** Trailing text after the digits is dropped: "12abc" is stored as "12". */
  lemma SeedChangedDropsTrailingText(current: Seed, n: int, tail: string)
    requires 0 <= n <= MaxSeed
    requires tail == [] || !IsDigit(tail[0])
    ensures SeedChanged(current, Itoa(n) + tail) == Seed(Itoa(n), true)
  {
    JsParseIntReadsDigits(n, tail);
    assert (Itoa(n) + tail)[0] == Itoa(n)[0];
  }

  /** A number above 2^31 - 1 is rejected and its text kept. */
  lemma SeedChangedRejectsLarge(current: Seed, n: int)
    requires n > MaxSeed
    ensures SeedChanged(current, Itoa(n)) == Seed(Itoa(n), false)
  {
    JsParseIntReadsDigits(n, "");
    assert NatToDigits(n) + "" == NatToDigits(n);
    assert IsDigit(Itoa(n)[0]);
  }

  /** A negative number is rejected and its text kept. */
  lemma SeedChangedRejectsNegative(current: Seed, n: nat)
    requires n > 0
    ensures SeedChanged(current, "-" + NatToDigits(n)) == Seed("-" + NatToDigits(n), false)
  {
    JsParseIntNegative(n);
    assert IsDigit(("-" + NatToDigits(n))[1]);
  }

  /** Feeding a valid seed's text back into the handler changes nothing. */
  lemma SeedChangedIdempotent(current: Seed, input: string)
    ensures var next := SeedChanged(current, input);
      next.valid ==> SeedChanged(next, next.text) == next
  {
    var next := SeedChanged(current, input);
    if next.valid && next.text != "" {
      SeedChangedAcceptsCanonical(next, JsParseInt(next.text).value);
    }
  }

  /** getWorkloadSeedValidatedState: error when invalid, default when empty, else success. */
  function SeedIndicator(seed: Seed): (r: Validated)
    ensures r == Success <==> seed.valid && seed.text != ""
    ensures r == Error <==> !seed.valid
    ensures r != Warning
  {
    if !seed.valid then Error else if seed.text == "" then Default else Success
  }

  /** After any edit, a green seed indicator means a canonical seed in range. */
  lemma SeedIndicatorSuccessIsCanonical(current: Seed, input: string)
    ensures SeedIndicator(SeedChanged(current, input)) == Success ==> CanonicalSeed(SeedChanged(current, input).text)
  {
  }

  /** The seed a template request carries: 0 for '', else parseInt (None = NaN). */
  function SeedValue(text: string): (r: Option<int>)
    ensures text == "" ==> r == Some(0)
    ensures CanonicalSeed(text) ==> r == JsParseInt(text)
  {
    if text == "" then Some(0) else JsParseInt(text)
  }

  /** The seed the request carries is the number whose canonical text the field holds. */
  lemma SeedValueOfCanonical(n: int)
    requires 0 <= n <= MaxSeed
    ensures SeedValue(Itoa(n)) == Some(n)
  {
    JsParseIntReadsDigits(n, "");
    assert NatToDigits(n) + "" == NatToDigits(n);
  }

  // ---------------------------------------------------------------------
  // Titles and names
  // ---------------------------------------------------------------------

  /** handleWorkloadTitleChanged's test `length >= 0 && length <= 36`: only the upper bound matters. */
  function TitleIsValid(title: string): (r: bool)
    ensures r <==> |title| <= MaxNameLength
  {
    |title| >= 0 && |title| <= 36
  }

  /** The title submitted: the default UUID when the field was left empty. */
  function SubmittedTitle(title: string, defaultTitle: string): (r: string)
    ensures title != "" ==> r == title
    ensures defaultTitle != "" ==> r != ""
    ensures r == title || r == defaultTitle
  {
    if |title| == 0 then defaultTitle else title
  }

  /** The indicator of a workload name or session id: default before the form loads, success iff 1..36 characters. */
  function NameValidation(name: Option<string>): (r: Validated)
    ensures r == Default <==> name.None?
    ensures r == Success <==> name.Some? && 1 <= |name.value| <= MaxNameLength
    ensures r != Warning
  {
    match name
    case None => Default
    case Some(n) => if |n| >= 1 && |n| <= 36 then Success else Error
  }

  /** isWorkloadNameValid / isSessionIdValid: true before the form loads, else 1..36 characters. */
  function NameIsValid(name: Option<string>): (r: bool)
    ensures r <==> NameValidation(name) != Error
  {
    match name
    case None => true
    case Some(n) => |n| >= 1 && |n| <= 36
  }

  // ---------------------------------------------------------------------
  // Numeric ranges
  // ---------------------------------------------------------------------

  /** A number in (0, hi]; blank and NaN are errors. */
  function PositiveUpTo(f: NumberField, hi: real): (r: Validated)
    ensures r == Success <==> f.Num? && 0.0 < f.v <= hi
    ensures r == Success || r == Error
  {
    match f
    case Blank => Error
    case NaN => Error
    case Num(v) => if v <= 0.0 || v > hi then Error else Success
  }

  /** validateTimescaleAdjustmentFactor: (0, 10]. */
  function TimescaleValidation(f: NumberField): (r: Validated)
    ensures r == Success <==> f.Num? && 0.0 < f.v <= 10.0
  {
    PositiveUpTo(f, 10.0)
  }

  /** validateSessionSamplePercentage: (0, 1]. */
  function SamplePercentValidation(f: NumberField): (r: Validated)
    ensures r == Success <==> f.Num? && 0.0 < f.v <= 1.0
  {
    PositiveUpTo(f, 1.0)
  }

  /** A sample percentage that validates also passes the timescale check. */
  lemma ValidSampleIsValidTimescale(f: NumberField)
    ensures SamplePercentValidation(f) == Success ==> TimescaleValidation(f) == Success
  {
  }

  function Min(a: real, b: real): real { if a <= b then a else b }
  function Max(a: real, b: real): real { if a >= b then a else b }

  /** clamp(v, min, max) = Math.max(Math.min(v, max), min). */
  function Clamp(v: real, lo: real, hi: real): (r: real)
    ensures lo <= hi ==> lo <= r <= hi
    ensures lo <= v <= hi ==> r == v
    ensures r == v || r == lo || r == hi
  {
    Max(Min(v, hi), lo)
  }

  /** Clamping twice is clamping once. */
  lemma ClampIdempotent(v: real, lo: real, hi: real)
    requires lo <= hi
    ensures Clamp(Clamp(v, lo, hi), lo, hi) == Clamp(v, lo, hi)
  {
  }

  /** JavaScript's `x || 1` on a count: 0 (and a missing value) becomes 1. */
  function OrOne(x: int): (r: int)
    ensures x != 0 ==> r == x
    ensures r != 0
  {
    if x == 0 then 1 else x
  }

  /** JavaScript's `x || 0` on a numeric field: blank, NaN and 0 all become 0. */
  function OrZero(f: NumberField): (r: real)
    ensures f.Num? ==> r == f.v
    ensures !f.Num? ==> r == 0.0
  {
    if f.Num? then f.v else 0.0
  }

  // ---------------------------------------------------------------------
  // Field arrays
  // ---------------------------------------------------------------------

  /** n copies of d. */
  function Repeat<T>(d: T, n: nat): (r: seq<T>)
    ensures |r| == n && forall i :: 0 <= i < n ==> r[i] == d
  {
    if n == 0 then [] else Repeat(d, n - 1) + [d]
  }

  /**
   * The field array after a count is typed: grown with d up to n, or cut
   * from the end down to n (to nothing when n is negative).
   */
  function Resized<T>(fields: seq<T>, n: int, d: T): (r: seq<T>)
    ensures n >= 0 ==> |r| == n
    ensures n < 0 ==> r == []
    ensures forall i :: 0 <= i < |r| && i < |fields| ==> r[i] == fields[i]
    ensures forall i :: |fields| <= i < |r| ==> r[i] == d
  {
    if n > |fields| then fields + Repeat(d, n - |fields|)
    else if n <= 0 then []
    else fields[..n]
  }

  /** Resizing to the current length keeps the fields. */
  lemma ResizedToSameLength<T>(fields: seq<T>, d: T)
    ensures Resized(fields, |fields|, d) == fields
  {
  }

  /** Growing then shrinking back restores the fields. */
  lemma ResizedGrowShrink<T>(fields: seq<T>, n: nat, d: T)
    requires n >= |fields|
    ensures Resized(Resized(fields, n, d), |fields|, d) == fields
  {
    var grown := Resized(fields, n, d);
    if n > |fields| {
      assert grown[..|fields|] == fields;
    }
  }

  /**
   * react-hook-form's `remove(i)` for the last index: the last field goes
   * away, and nothing happens on an empty array (remove(-1)).
   */
  function RemoveLast<T>(fields: seq<T>): (r: seq<T>)
    ensures fields == [] ==> r == []
    ensures fields != [] ==> |r| == |fields| - 1 && fields == r + [fields[|fields| - 1]]
  {
    if fields == [] then [] else fields[..|fields| - 1]
  }

  /**
   * The onChange handlers of a count field: append d while the array is
   * shorter than n, else `remove(i - 1)` from the end while i > n (an index
   * before the start removes nothing).
   */
  method ResizeFields<T>(fields: seq<T>, n: int, d: T) returns (r: seq<T>)
    ensures r == Resized(fields, n, d)
  {
    r := fields;
    if n > |fields| {
      var i := |fields|;
      while i < n
        invariant |fields| <= i <= n
        invariant r == fields + Repeat(d, i - |fields|)
      {
        r := r + [d];
        i := i + 1;
      }
    } else {
      var i := |fields|;
      while i > n
        invariant n <= i <= |fields|
        invariant r == fields[..if i < 0 then 0 else i]
        decreases i - n
      {
        if i - 1 >= 0 {
          r := r[..i - 1];
        }
        i := i - 1;
      }
      assert r == fields[..if n < 0 then 0 else n];
    }
  }
}
