/** `>> float` on an istringstream, as libstdc++ does it: the characters the
    stream accumulates, the value strtod gives them, and where the next read
    starts. */
module Numbers {
  import opened Wrappers
  import opened Text

  /** A number `>> float` has read: its value and the characters it used. */
  datatype NumberRead = NumberRead(value: real, used: nat)

  /** v with its decimal point moved e places: v times 10 to the power e. */
  function Scaled(v: real, e: int): real
    decreases if e >= 0 then e else -e
  {
    if e == 0 then v
    else if e > 0 then 10.0 * Scaled(v, e - 1)
    else Scaled(v, e + 1) / 10.0
  }

  /** 1 when s has a sign at position `at`, else 0. */
  function SignLength(s: string, at: nat): (n: nat)
    requires at <= |s|
    ensures at + n <= |s|
  {
    if at < |s| && (s[at] == '-' || s[at] == '+') then 1 else 0
  }

  function Signed(neg: bool, v: real): real {
    if neg then -v else v
  }

  /** The value of a mantissa with integer part `whole` and `places`
      fraction digits of value `fraction`. */
  function Decimal(whole: nat, fraction: nat, places: nat): real {
    whole as real + Scaled(fraction as real, -(places as int))
  }

  /** The mantissa of w at position `at`: digits, then optionally a point
      and more digits, with at least one digit in all. Its value is the
      integer part plus the fraction digits shifted right past the point. */
  function MantissaAt(w: string, at: nat): (r: Option<NumberRead>)
    requires at <= |w|
    ensures r.Some? ==> 0 < r.value.used && at + r.value.used <= |w|
  {
    var i := DigitRun(w, at);
    var p := at + i;
    if p < |w| && w[p] == '.' then
      var f := DigitRun(w, p + 1);
      if i + f == 0 then None
      else Some(NumberRead(Decimal(DigitsValue(w[at..p]), DigitsValue(w[p + 1..p + 1 + f]), f), i + 1 + f))
    else if i == 0 then None
    else Some(NumberRead(DigitsValue(w[at..p]) as real, i))
  }

  /** An exponent read after its 'e': the power of ten and the characters used. */
  datatype ExponentRead = ExponentRead(power: int, used: nat)

  /** The exponent of w at position `at` (just after the 'e'): an optional
      sign and at least one digit. */
  function ExponentAt(w: string, at: nat): (r: Option<ExponentRead>)
    requires at <= |w|
    ensures r.Some? ==> 0 < r.value.used && at + r.value.used <= |w|
  {
    var sl := SignLength(w, at);
    var d := DigitRun(w, at + sl);
    if d == 0 then None
    else
      var v: int := DigitsValue(w[at + sl..at + sl + d]);
      Some(ExponentRead(if sl == 1 && w[at] == '-' then -v else v, sl + d))
  }

  /** `>> float` reading from the front of the word w. The stream accumulates
      an optional sign, digits with at most one point and, once a digit has
      been seen, an 'e' or 'E' with an optional sign and digits; it stops at
      the first character that cannot continue the number. The read succeeds
      only when what it accumulated is a whole number: at least one mantissa
      digit, and exponent digits after an 'e'. */
  function NumberPrefix(w: string): (r: Option<NumberRead>)
    ensures r.Some? ==> 0 < r.value.used <= |w|
  {
    var sl := SignLength(w, 0);
    var neg := sl == 1 && w[0] == '-';
    match MantissaAt(w, sl)
    case None => None
    case Some(m) =>
      var p := sl + m.used;
      if p < |w| && (w[p] == 'e' || w[p] == 'E') then
        match ExponentAt(w, p + 1)
        case None => None
        case Some(x) => Some(NumberRead(Signed(neg, Scaled(m.value, x.power)), p + 1 + x.used))
      else Some(NumberRead(Signed(neg, m.value), p))
  }

  /** A word that `>> float` reads completely. */
  predicate NumberWord(w: string) {
    NumberPrefix(w).Some? && NumberPrefix(w).value.used == |w|
  }

  /** The value of a whole-number word. */
  function WordValue(w: string): real
    requires NumberWord(w)
  {
    NumberPrefix(w).value.value
  }

  /** `iss >> a >> b >> ...` for n floats, reading the words ws that are
      left in the stream. No number holds a blank, so each read works on
      one word; a read that stops inside a word leaves the rest of the word
      for the next read. The first read that fails (no word left, or no
      whole number at the front of the word) sets the stream's failbit:
      that value is 0 and nothing more is read. */
  function ReadReals(ws: seq<string>, n: nat): (vs: seq<real>)
    ensures |vs| == n
    decreases n
  {
    if n == 0 then []
    else if |ws| == 0 then seq(n, _ => 0.0)
    else match NumberPrefix(ws[0])
      case None => seq(n, _ => 0.0)
      case Some(r) =>
        var rest := if r.used < |ws[0]| then [ws[0][r.used..]] + ws[1..] else ws[1..];
        [r.value] + ReadReals(rest, n - 1)
  }

  /** The first |vs| of the words ws are whole numbers of values vs. */
  predicate NumberWords(ws: seq<string>, vs: seq<real>) {
    |vs| <= |ws| &&
    (|vs| > 0 ==> NumberWord(ws[0]) && WordValue(ws[0]) == vs[0] && NumberWords(ws[1..], vs[1..]))
  }

  /** Numbers written as words are read in order, one per word. */
  lemma {:induction false} ReadRealsOfNumbers(ws: seq<string>, vs: seq<real>)
    requires NumberWords(ws, vs)
    ensures ReadReals(ws, |vs|) == vs
    decreases |vs|
  {
    if |vs| > 0 {
      assert ReadReals(ws, |vs|) == [vs[0]] + ReadReals(ws[1..], |vs| - 1);
      ReadRealsOfNumbers(ws[1..], vs[1..]);
      assert vs == [vs[0]] + vs[1..];
    }
  }

  /** With no words left every read fails and every value is 0. */
  lemma ReadRealsOfNothing(n: nat)
    ensures ReadReals([], n) == seq(n, _ => 0.0)
  {
  }

  /** A run of n > 0 digits at `at`, followed by the end of w or by
      anything but a digit or a point, is a mantissa of its own value. */
  lemma MantissaOfDigits(w: string, at: nat, n: nat)
    requires 0 < n && at + n <= |w|
    requires forall k :: at <= k < at + n ==> IsDigit(w[k])
    requires at + n == |w| || (!IsDigit(w[at + n]) && w[at + n] != '.')
    ensures MantissaAt(w, at).Some? && MantissaAt(w, at).value.used == n
    ensures MantissaAt(w, at).value.value == DigitsValue(w[at..at + n]) as real
  {
    DigitRunUpTo(w, at, at + n);
  }

  /** A word that is one mantissa after an optional minus sign is a whole
      number of that value, negated after the sign. */
  lemma WordOfMantissa(w: string, neg: bool)
    requires |w| > 0 && (if neg then w[0] == '-' else w[0] != '-' && w[0] != '+')
    requires var sl := if neg then 1 else 0;
      MantissaAt(w, sl).Some? && sl + MantissaAt(w, sl).value.used == |w|
    ensures NumberWord(w)
    ensures WordValue(w) == Signed(neg, MantissaAt(w, if neg then 1 else 0).value.value)
  {
  }

  /** An unsigned word that is a mantissa, an 'e' and an exponent is a
      whole number: the mantissa scaled by the exponent. */
  lemma WordOfExponent(w: string)
    requires |w| > 0 && w[0] != '-' && w[0] != '+'
    requires MantissaAt(w, 0).Some? && MantissaAt(w, 0).value.used < |w|
    requires w[MantissaAt(w, 0).value.used] == 'e'
    requires ExponentAt(w, MantissaAt(w, 0).value.used + 1).Some?
    requires MantissaAt(w, 0).value.used + 1 + ExponentAt(w, MantissaAt(w, 0).value.used + 1).value.used == |w|
    ensures NumberWord(w)
    ensures WordValue(w) == Scaled(MantissaAt(w, 0).value.value, ExponentAt(w, MantissaAt(w, 0).value.used + 1).value.power)
  {
  }

  /** A negative exponent divides by the power of ten. */
  lemma {:induction false} ScaledNegative(v: real, k: nat)
    ensures Scaled(v, -(k as int)) == v / Pow10(k) as real
  {
    if k > 0 {
      ScaledNegative(v, k - 1);
      var p := Pow10(k - 1) as real;
      assert Pow10(k) as real == 10.0 * p;
      assert (v / p) / 10.0 == v / (10.0 * p);
    }
  }

  /** "-" and k > 0 digits at `at` are an exponent of minus their value. */
  lemma NegativeExponent(w: string, at: nat, k: nat)
    requires 0 < k && at + 1 + k == |w| && w[at] == '-'
    requires forall j :: at + 1 <= j < |w| ==> IsDigit(w[j])
    ensures ExponentAt(w, at).Some? && ExponentAt(w, at).value.used == 1 + k
    ensures ExponentAt(w, at).value.power == -(DigitsValue(w[at + 1..]) as int)
  {
    DigitRunUpTo(w, at + 1, |w|);
    assert w[at + 1..at + 1 + k] == w[at + 1..];
  }

  /** A word of digits, after a minus sign when `neg`, reads back as the
      value of its digits, negated after the sign. */
  lemma DigitsWordReadsBack(w: string, neg: bool)
    requires var sl := if neg then 1 else 0;
      |w| > sl && (neg ==> w[0] == '-') && forall k :: sl <= k < |w| ==> IsDigit(w[k])
    ensures NumberWord(w)
    ensures WordValue(w) == Signed(neg, DigitsValue(w[if neg then 1 else 0..]) as real)
  {
    var sl := if neg then 1 else 0;
    assert IsDigit(w[sl]);
    MantissaOfDigits(w, sl, |w| - sl);
    assert w[sl..sl + (|w| - sl)] == w[sl..];
    WordOfMantissa(w, neg);
  }

  /** Printed integers read back as themselves, with or without a minus
      sign in front. */
  lemma IntegerWordReadsBack(n: nat)
    ensures NumberWord(NatToDigits(n)) && WordValue(NatToDigits(n)) == n as real
    ensures NumberWord("-" + NatToDigits(n)) && WordValue("-" + NatToDigits(n)) == -(n as real)
  {
    var s := NatToDigits(n);
    DigitsRoundTrip(n);
    DigitsWordReadsBack(s, false);
    assert s[0..] == s;
    var t := "-" + s;
    assert forall k :: 1 <= k < |t| ==> t[k] == s[k - 1];
    DigitsWordReadsBack(t, true);
    assert t[1..] == s;
  }

  /** A word of i digits, a point and f more digits (at least one digit in
      all) is a whole number: the decimal they spell. */
  lemma PointWord(w: string, i: nat, f: nat)
    requires i + f > 0 && i + 1 + f == |w|
    requires forall k :: 0 <= k < i ==> IsDigit(w[k])
    requires w[i] == '.'
    requires forall k :: i + 1 <= k < |w| ==> IsDigit(w[k])
    ensures NumberWord(w)
    ensures WordValue(w) == Decimal(DigitsValue(w[0..i]), DigitsValue(w[i + 1..i + 1 + f]), f)
  {
    DigitRunUpTo(w, 0, i);
    DigitRunUpTo(w, i + 1, |w|);
    WordOfMantissa(w, false);
  }

  /** A decimal is its integer part plus its fraction over 10 to the
      number of places. */
  lemma DecimalIsFraction(whole: nat, fraction: nat, places: nat)
    ensures Decimal(whole, fraction, places) == whole as real + fraction as real / Pow10(places) as real
  {
    ScaledNegative(fraction as real, places);
  }

  /** A word of i digits, a point and more digits (at least one digit in
      all) reads back as the decimal they spell; by DecimalIsFraction that
      is the integer part plus the fraction digits over 10 to their number. */
  lemma DecimalWordReadsBack(w: string, i: nat)
    requires i + 1 < |w| || (0 < i && i + 1 == |w|)
    requires forall k :: 0 <= k < i ==> IsDigit(w[k])
    requires w[i] == '.'
    requires forall k :: i + 1 <= k < |w| ==> IsDigit(w[k])
    ensures NumberWord(w)
    ensures WordValue(w) == Decimal(DigitsValue(w[..i]), DigitsValue(w[i + 1..]), |w| - i - 1)
  {
    var f := |w| - i - 1;
    PointWord(w, i, f);
    assert w[0..i] == w[..i] && w[i + 1..i + 1 + f] == w[i + 1..];
    var whole, fraction := DigitsValue(w[..i]), DigitsValue(w[i + 1..]);
    assert DigitsValue(w[0..i]) == whole && DigitsValue(w[i + 1..i + 1 + f]) == fraction;
    assert WordValue(w) == Decimal(whole, fraction, f);
  }

  /** A word of digits, "e-" and more digits reads back as the value of the
      first digits over 10 to the value of the last. */
  lemma NegativeExponentWordReadsBack(w: string, n: nat)
    requires 0 < n && n + 2 < |w| && w[n] == 'e' && w[n + 1] == '-'
    requires forall k :: 0 <= k < n ==> IsDigit(w[k])
    requires forall k :: n + 2 <= k < |w| ==> IsDigit(w[k])
    ensures NumberWord(w)
    ensures WordValue(w) == DigitsValue(w[..n]) as real / Pow10(DigitsValue(w[n + 2..])) as real
  {
    MantissaOfDigits(w, 0, n);
    assert w[0..n] == w[..n];
    NegativeExponent(w, n + 1, |w| - n - 2);
    WordOfExponent(w);
    ScaledNegative(DigitsValue(w[..n]) as real, DigitsValue(w[n + 2..]));
  }

  /** A decimal followed by a character that cannot continue a number is
      read as that decimal, and the read stops there. */
  lemma DecimalPrefix(w: string, i: nat, f: nat)
    requires i + f > 0 && i + 1 + f < |w|
    requires forall k :: 0 <= k < i ==> IsDigit(w[k])
    requires w[i] == '.'
    requires forall k :: i + 1 <= k < i + 1 + f ==> IsDigit(w[k])
    requires var c := w[i + 1 + f]; !IsDigit(c) && c != 'e' && c != 'E'
    ensures NumberPrefix(w).Some? && NumberPrefix(w).value.used == i + 1 + f
    ensures NumberPrefix(w).value.value == Decimal(DigitsValue(w[0..i]), DigitsValue(w[i + 1..i + 1 + f]), f)
  {
    DecimalMantissa(w, i, f);
    PrefixOfMantissa(w);
  }

  /** Digits, a point and digits (at least one digit in all) form a mantissa. */
  lemma DecimalMantissa(w: string, i: nat, f: nat)
    requires i + f > 0 && i + 1 + f <= |w|
    requires forall k :: 0 <= k < i ==> IsDigit(w[k])
    requires w[i] == '.'
    requires forall k :: i + 1 <= k < i + 1 + f ==> IsDigit(w[k])
    requires i + 1 + f < |w| ==> !IsDigit(w[i + 1 + f])
    ensures MantissaAt(w, 0).Some? && MantissaAt(w, 0).value.used == i + 1 + f
    ensures MantissaAt(w, 0).value.value == Decimal(DigitsValue(w[0..i]), DigitsValue(w[i + 1..i + 1 + f]), f)
  {
    DigitRunUpTo(w, 0, i);
    DigitRunUpTo(w, i + 1, i + 1 + f);
  }

  /** An unsigned mantissa not followed by an exponent mark is read alone. */
  lemma PrefixOfMantissa(w: string)
    requires |w| > 0 && w[0] != '-' && w[0] != '+'
    requires MantissaAt(w, 0).Some? && MantissaAt(w, 0).value.used < |w|
    requires var c := w[MantissaAt(w, 0).value.used]; c != 'e' && c != 'E'
    ensures NumberPrefix(w).Some? && NumberPrefix(w).value.used == MantissaAt(w, 0).value.used
    ensures NumberPrefix(w).value.value == MantissaAt(w, 0).value.value
  {
  }

  /** A one-character run of digits has that digit's value. */
  lemma OneDigit(s: string)
    requires |s| == 1
    ensures DigitsValue(s) == DigitValue(s[0])
  {
    assert s[..0] == [];
  }

  /** "1e-3" is a whole number: 1 over 10 to the 3. */
  lemma ExponentWordExample(w: string)
    requires |w| == 4 && w[0] == '1' && w[1] == 'e' && w[2] == '-' && w[3] == '3'
    ensures NumberWord(w) && WordValue(w) == 0.001
  {
    NegativeExponentWordReadsBack(w, 1);
    OneDigit(w[..1]);
    OneDigit(w[3..]);
    assert Pow10(3) == 1000;
  }

  /** A one-digit word is a whole number: the digit's value. */
  lemma DigitWordExample(w: string)
    requires |w| == 1 && IsDigit(w[0])
    ensures NumberWord(w) && WordValue(w) == DigitValue(w[0]) as real
  {
    DigitsWordReadsBack(w, false);
    assert w[0..] == w;
    OneDigit(w);
  }

  /** "1e-3 2 3" is read as 0.001, 2 and 3. */
  lemma ExponentExample()
    ensures ReadReals(["1e-3", "2", "3"], 3) == [0.001, 2.0, 3.0]
  {
    var ws := ["1e-3", "2", "3"];
    ExponentWordExample(ws[0]);
    DigitWordExample(ws[1]);
    DigitWordExample(ws[2]);
    assert NumberWords(ws[3..], []);
    assert NumberWords(ws[2..], [3.0]);
    assert NumberWords(ws[1..], [2.0, 3.0]);
    ReadRealsOfNumbers(ws, [0.001, 2.0, 3.0]);
  }

  /** "0.5x": the read takes 0.5 and stops at the 'x'. */
  lemma PartialWordPrefix(w: string)
    requires |w| == 4 && w[0] == '0' && w[1] == '.' && w[2] == '5' && w[3] == 'x'
    ensures NumberPrefix(w).Some? && NumberPrefix(w).value.used == 3
    ensures NumberPrefix(w).value.value == 0.5
  {
    DecimalPrefix(w, 1, 1);
    OneDigit(w[0..1]);
    OneDigit(w[2..3]);
    assert Decimal(0, 5, 1) == 0.5;
  }

  /** "0.5x 0.2 0.3": the first read takes 0.5 and stops at the 'x', the
      second fails on the 'x' and sets failbit, so 0.2 and 0.3 are never
      read and the last two values are 0. */
  lemma PartialWordExample()
    ensures ReadReals(["0.5x", "0.2", "0.3"], 3) == [0.5, 0.0, 0.0]
  {
    var ws := ["0.5x", "0.2", "0.3"];
    PartialWordPrefix(ws[0]);
    assert ws[0][3..] == "x";
    assert NumberPrefix("x").None?;
    assert ReadReals(["x", "0.2", "0.3"], 2) == [0.0, 0.0];
  }
}
