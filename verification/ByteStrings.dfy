/** Byte strings, as the wire format handles them: searching for a delimiter, and the decimal
    numerals of Go's `strconv.Itoa` and `strconv.Atoi`. */
module ByteStrings {

  type byte = b: int | 0 <= b < 256

  type Bytes = seq<byte>

  datatype Option<+T> = None | Some(value: T)

  const LF: byte := 10
  const SPACE: byte := 32
  const PLUS: byte := 43
  const COMMA: byte := 44
  const MINUS: byte := 45
  const PERCENT: byte := 37
  const ZERO: byte := 48

  const MIN_INT64 := -0x8000_0000_0000_0000
  const MAX_INT64 := 0x7FFF_FFFF_FFFF_FFFF

  predicate IsInt64(n: int) {
    MIN_INT64 <= n <= MAX_INT64
  }

  /** The bytes of an ASCII literal. */
  function Ascii(s: string): (b: Bytes)
    ensures |b| == |s|
  {
    seq(|s|, i requires 0 <= i < |s| => s[i] as int % 256)
  }

  /** The position of the first `b`, or `|s|` when there is none. */
  function IndexOf(s: Bytes, b: byte): (i: nat)
    ensures i <= |s|
    ensures i < |s| ==> s[i] == b
    ensures forall j :: 0 <= j < i ==> s[j] != b
  {
    if s == [] || s[0] == b then 0 else 1 + IndexOf(s[1..], b)
  }

  /** A delimiter that `p` does not contain is found right after `p`. */
  lemma IndexAfter(p: Bytes, b: byte, q: Bytes)
    requires b !in p
    ensures IndexOf(p + [b] + q, b) == |p|
  {
    var s := p + [b] + q;
    assert s[|p|] == b;
    assert forall j :: 0 <= j < |p| ==> s[j] == p[j];
  }

  /** Appending bytes does not move a delimiter that is already there. */
  lemma IndexStable(s: Bytes, b: byte, q: Bytes)
    requires IndexOf(s, b) < |s|
    ensures IndexOf(s + q, b) == IndexOf(s, b)
  {
    var i := IndexOf(s, b);
    assert s + q == s[..i] + [b] + (s[i + 1..] + q);
    IndexAfter(s[..i], b, s[i + 1..] + q);
  }

  // Decimal numerals

  predicate IsDigit(b: byte) {
    ZERO <= b < ZERO + 10
  }

  predicate AllDigits(s: Bytes) {
    forall i :: 0 <= i < |s| ==> IsDigit(s[i])
  }

  function Decimal(n: nat): (s: Bytes)
    ensures s != [] && AllDigits(s)
  {
    if n < 10 then [ZERO + n] else Decimal(n / 10) + [ZERO + n % 10]
  }

  function Itoa(n: int): (s: Bytes) {
    if n < 0 then [MINUS] + Decimal(-n) else Decimal(n)
  }

  function DigitsValue(s: Bytes): nat
    requires AllDigits(s)
  {
    if s == [] then 0 else 10 * DigitsValue(s[..|s| - 1]) + (s[|s| - 1] - ZERO)
  }

  /** Base 10 with an optional sign, at least one digit, and a result of 64 bits. */
  function Atoi(s: Bytes): (n: Option<int>)
    ensures n.Some? ==> IsInt64(n.value) && s != []
  {
    var digits := if s != [] && (s[0] == PLUS || s[0] == MINUS) then s[1..] else s;
    if digits == [] || !AllDigits(digits) then None
    else
      var n := (if s[0] == MINUS then -1 else 1) * DigitsValue(digits);
      if IsInt64(n) then Some(n) else None
  }

  lemma {:induction false} DecimalValue(n: nat)
    ensures DigitsValue(Decimal(n)) == n
  {
    if n < 10 {
    } else {
      DecimalValue(n / 10);
      assert Decimal(n)[..|Decimal(n)| - 1] == Decimal(n / 10);
    }
  }

  /** Reading a printed 64-bit integer gives the integer back. */
  lemma AtoiItoa(n: int)
    requires IsInt64(n)
    ensures Atoi(Itoa(n)) == Some(n)
    ensures LF !in Itoa(n) && COMMA !in Itoa(n)
  {
    var m := if n < 0 then -n else n;
    DecimalValue(m);
    if n < 0 {
      assert Itoa(n)[1..] == Decimal(m);
    } else {
      assert IsDigit(Itoa(n)[0]);
    }
  }

  /** No numeral is shorter than the printed one. */
  lemma {:induction false} DecimalShortest(s: Bytes)
    requires s != [] && AllDigits(s)
    ensures |Decimal(DigitsValue(s))| <= |s|
  {
    var n := DigitsValue(s);
    if n < 10 {
    } else {
      assert n / 10 == DigitsValue(s[..|s| - 1]);
      DecimalShortest(s[..|s| - 1]);
    }
  }

  /** Whatever non-canonical form was read (`+5`, `007`, `-0`), the printed form is no longer. */
  lemma ItoaShortest(s: Bytes)
    requires Atoi(s).Some?
    ensures |Itoa(Atoi(s).value)| <= |s|
  {
    var digits := if s[0] == PLUS || s[0] == MINUS then s[1..] else s;
    DecimalShortest(digits);
  }
}
