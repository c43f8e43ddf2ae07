/** Optional values, used wherever the C code returns a success flag next to
    an out-parameter. */
module Optional {

  datatype Option<+T> = None | Some(value: T)
}

/** Numeric helpers the parser relies on: the arithmetic of reverse-Polish
    operators, the C `(int)` cast used for DO bounds, and the recogniser for
    numeric literals. */
module Numbers {
  import opened Optional

  /** The four reverse-Polish operators. */
  datatype MathOp = Add | Subtract | Multiply | Divide

  /** `a <op> b`. Values are reals rather than doubles; a division by zero
      yields 0.0 instead of an IEEE infinity. */
  function DoMaths(a: real, b: real, op: MathOp): real
  {
    match op
    case Add => a + b
    case Subtract => a - b
    case Multiply => a * b
    case Divide => if b == 0.0 then 0.0 else a / b
  }

  /** The repository's checks of the four operations. */
  lemma MathsSamples()
    ensures DoMaths(1.0, 4.0, Add) == 5.0
    ensures DoMaths(25.0, -13.0, Subtract) == 38.0
    ensures DoMaths(12.0, 4.0, Divide) == 3.0
    ensures DoMaths(20.0, 17.0, Multiply) == 340.0
  {
  }

  /** The C cast `(int) x`: truncation toward zero. */
  function Trunc(x: real): (n: int)
    ensures x >= 0.0 ==> n >= 0 && n as real <= x < n as real + 1.0
    ensures x < 0.0 ==> n <= 0 && n as real - 1.0 < x <= n as real
  {
    if x >= 0.0 then x.Floor else -((-x).Floor)
  }

  predicate IsDigit(c: char)
  {
    '0' <= c <= '9'
  }

  function DigitOf(c: char): nat
    requires IsDigit(c)
  {
    (c as int) - ('0' as int)
  }

  predicate AllDigits(s: string)
  {
    forall i :: 0 <= i < |s| ==> IsDigit(s[i])
  }

  /** The value of a run of decimal digits, most significant first. */
  function DigitsValue(s: string): nat
    requires AllDigits(s)
    decreases |s|
  {
    if |s| == 0 then 0
    else DigitsValue(s[..|s| - 1]) * 10 + DigitOf(s[|s| - 1])
  }

  function Pow10(n: nat): (p: nat)
    ensures p >= 1
  {
    if n == 0 then 1 else 10 * Pow10(n - 1)
  }

  /** A numeral read so far: the digits before the point, those after it and
      how many there are, how many digits in all, and whether the point has
      been read. */
  datatype Numeral = Numeral(whole: nat, frac: nat, places: nat, digits: nat, dot: bool)

  /** Reads the digits and at most one decimal point of `t` from index `i`
      on, and fails on any other character or when no digit was read. */
  function ScanDigits(t: string, i: nat, acc: Numeral): (r: Option<Numeral>)
    requires i <= |t|
    ensures r.Some? ==> r.value.digits > 0
    ensures r.Some? ==> i < |t| || acc.digits > 0
    decreases |t| - i
  {
    if i == |t| then
      if acc.digits > 0 then Some(acc) else None
    else if IsDigit(t[i]) then
      var d := DigitOf(t[i]);
      if acc.dot then
        ScanDigits(t, i + 1, acc.(frac := acc.frac * 10 + d, places := acc.places + 1, digits := acc.digits + 1))
      else
        ScanDigits(t, i + 1, acc.(whole := acc.whole * 10 + d, digits := acc.digits + 1))
    else if t[i] == '.' && !acc.dot then
      ScanDigits(t, i + 1, acc.(dot := true))
    else None
  }

  /** The numeric-literal recogniser: an optional leading '-' followed by
      digits with at most one decimal point, at least one digit in all. The
      repository's own recogniser is not part of this model; this one agrees
      with the lexical form the language documents and with the repository's
      checks on "X", "The West Midlands", "25", "-25" and "38547.1698". */
  function ParseNumber(t: string): (r: Option<real>)
    ensures r.Some? ==> |t| >= 1
  {
    var start := if |t| > 0 && t[0] == '-' then 1 else 0;
    match ScanDigits(t, start, Numeral(0, 0, 0, 0, false))
    case None => None
    case Some(n) =>
      var v := n.whole as real + n.frac as real / Pow10(n.places) as real;
      Some(if start == 1 then -v else v)
  }

  /** Scanning a run of digits accumulates their value. */
  lemma {:induction false} ScanWhole(t: string, s0: nat, i: nat)
    requires s0 <= i <= |t| && AllDigits(t[s0..])
    requires i < |t| || i > s0
    ensures AllDigits(t[s0..i])
    ensures ScanDigits(t, i, Numeral(DigitsValue(t[s0..i]), 0, 0, i - s0, false))
              == Some(Numeral(DigitsValue(t[s0..]), 0, 0, |t| - s0, false))
    decreases |t| - i
  {
    assert forall k :: s0 <= k < |t| ==> IsDigit(t[k]) by {
      forall k | s0 <= k < |t| ensures IsDigit(t[k]) { assert t[k] == t[s0..][k - s0]; }
    }
    if i < |t| {
      assert t[s0..i + 1][..i - s0] == t[s0..i];
      ScanWhole(t, s0, i + 1);
    } else {
      assert t[s0..i] == t[s0..];
    }
  }

  /** An unsigned run of digits is read as the integer it spells. */
  lemma DigitRunIsNumber(s: string)
    requires |s| > 0 && AllDigits(s)
    ensures ParseNumber(s) == Some(DigitsValue(s) as real)
  {
    assert s[0..] == s && s[0..0] == [];
    ScanWhole(s, 0, 0);
  }

  /** A '-' followed by a run of digits is read as the negated integer. */
  lemma NegatedRunIsNumber(s: string)
    requires |s| > 0 && AllDigits(s)
    ensures ParseNumber("-" + s) == Some(-(DigitsValue(s) as real))
  {
    var m := "-" + s;
    assert m[1..] == s && m[1..1] == [];
    ScanWhole(m, 1, 1);
  }

  /** The repository's checks of tokens that are not numbers. */
  lemma NonNumberSamples()
    ensures ParseNumber("X") == None
    ensures ParseNumber("The West Midlands") == None
  {
  }

  /** The repository's checks of tokens that are numbers, with the values
      they expect. */
  lemma NumberSamples()
    ensures ParseNumber("25") == Some(25.0)
    ensures ParseNumber("-25") == Some(-25.0)
  {
  }

  /** An unsigned numeral is read as its whole part plus its fraction. */
  lemma UnsignedFromScan(t: string, n: Numeral)
    requires |t| > 0 && t[0] != '-'
    requires ScanDigits(t, 0, Numeral(0, 0, 0, 0, false)) == Some(n)
    ensures ParseNumber(t) == Some(n.whole as real + n.frac as real / Pow10(n.places) as real)
  {
  }

  /** Scanning "38547.1698" reads 38547 before the point and 1698 in four
      places after it. */
  lemma DecimalScan()
    ensures ScanDigits("38547.1698", 0, Numeral(0, 0, 0, 0, false)) == Some(Numeral(38547, 1698, 4, 9, true))
  {
    DecimalWhole();
    DecimalFraction();
  }

  /** The digits before the point of "38547.1698". */
  lemma DecimalWhole()
    ensures ScanDigits("38547.1698", 0, Numeral(0, 0, 0, 0, false))
         == ScanDigits("38547.1698", 5, Numeral(38547, 0, 0, 5, false))
  {
    var t := "38547.1698";
    assert t[0] == '3' && t[1] == '8' && t[2] == '5' && t[3] == '4' && t[4] == '7';
    assert ScanDigits(t, 0, Numeral(0, 0, 0, 0, false)) == ScanDigits(t, 1, Numeral(3, 0, 0, 1, false));
    assert ScanDigits(t, 1, Numeral(3, 0, 0, 1, false)) == ScanDigits(t, 2, Numeral(38, 0, 0, 2, false));
    assert ScanDigits(t, 2, Numeral(38, 0, 0, 2, false)) == ScanDigits(t, 3, Numeral(385, 0, 0, 3, false));
    assert ScanDigits(t, 3, Numeral(385, 0, 0, 3, false)) == ScanDigits(t, 4, Numeral(3854, 0, 0, 4, false));
  }

  /** The point and the digits after it of "38547.1698". */
  lemma DecimalFraction()
    ensures ScanDigits("38547.1698", 5, Numeral(38547, 0, 0, 5, false)) == Some(Numeral(38547, 1698, 4, 9, true))
  {
    var t := "38547.1698";
    var last := Some(Numeral(38547, 1698, 4, 9, true));
    assert ScanDigits(t, 8, Numeral(38547, 16, 2, 7, true)) == last;
    assert ScanDigits(t, 6, Numeral(38547, 0, 0, 5, true)) == last;
  }

  /** The repository's check of a decimal fraction. */
  lemma DecimalSample()
    ensures ParseNumber("38547.1698") == Some(38547.1698)
  {
    DecimalScan();
    UnsignedFromScan("38547.1698", Numeral(38547, 1698, 4, 9, true));
    assert Pow10(4) == 10000;
  }
}
