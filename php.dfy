/**
 * The PHP values the client handles (decoded JSON bodies, auth descriptors,
 * request data) and the loose comparisons, truthiness tests and string
 * conversions the client code applies to them. Comparisons follow PHP 8.
 */
module Php {

  datatype Option<+T> = None | Some(value: T)

  /** How a call ends: it returns a value, or a PHP Error escapes it. */
  datatype Outcome<+T> = Returned(value: T) | Raised

  /** A PHP value. Arrays are string-keyed; their order is not modelled. */
  datatype Value =
    | Null
    | Bool(b: bool)
    | Int(i: int)
    | Str(s: string)
    | Arr(entries: map<string, Value>)

  /** PHP's `FALSE`, the client's "no auth" marker. */
  const False: Value := Bool(false)

  /** PHP's `[]`. */
  const EmptyArray: Value := Arr(map[])

  /** `$v == NULL`: null, false, 0, "" and the empty array all compare equal to NULL. */
  predicate LooseNull(v: Value) {
    match v
    case Null => true
    case Bool(b) => !b
    case Int(i) => i == 0
    case Str(s) => s == ""
    case Arr(m) => m == map[]
  }

  /** A non-empty word of lower-case letters, such as the auth type names. */
  predicate IsWord(w: string) {
    |w| > 0 && forall i :: 0 <= i < |w| ==> 'a' <= w[i] <= 'z'
  }

  /**
   * `$v == 'word'` for a non-numeric literal word: a string compares as a
   * string, a boolean compares with the word's truthiness (always true), and
   * null, integers and arrays never equal such a word.
   */
  predicate LooseEqualsWord(v: Value, word: string)
    requires IsWord(word)
  {
    match v
    case Str(s) => s == word
    case Bool(b) => b
    case _ => false
  }

  /** The truthiness of a string (`if ($s)`, `!empty($s)`): false exactly for "" and "0". */
  predicate Truthy(s: string) {
    s != "" && s != "0"
  }

  /** `$v[$k]` on a read: the entry, or NULL when the key is missing or `$v` is not an array. */
  function Index(v: Value, k: string): Value {
    if v.Arr? && k in v.entries then v.entries[k] else Null
  }

  /** `isset($v[$k])`: the key exists and its value is not NULL. */
  predicate Isset(v: Value, k: string) {
    Index(v, k) != Null
  }

  function DigitChar(d: nat): (c: char)
    requires d < 10
    ensures '0' <= c <= '9'
  {
    "0123456789"[d]
  }

  function DigitValue(c: char): (d: nat)
    ensures d < 10
  {
    if '0' <= c <= '9' then (c as int - '0' as int) else 0
  }

  predicate AllDigits(s: string) {
    forall i :: 0 <= i < |s| ==> '0' <= s[i] <= '9'
  }

  /** The decimal text PHP writes for a non-negative integer. */
  function Decimal(n: nat): (r: string)
    ensures |r| > 0 && AllDigits(r)
    ensures (|r| > 1) == (n >= 10)
  {
    if n < 10 then [DigitChar(n)] else Decimal(n / 10) + [DigitChar(n % 10)]
  }

  /** Reads a string of digits back as a number. */
  function ParseDecimal(s: string): nat {
    if |s| == 0 then 0 else ParseDecimal(s[..|s| - 1]) * 10 + DigitValue(s[|s| - 1])
  }

  lemma DigitRoundTrip(d: nat)
    requires d < 10
    ensures DigitValue(DigitChar(d)) == d
  {
  }

  /** Reading back what Decimal writes gives the number again. */
  lemma {:induction false} DecimalRoundTrip(n: nat)
    ensures ParseDecimal(Decimal(n)) == n
  {
    var r := Decimal(n);
    if n < 10 {
      DigitRoundTrip(n);
      assert r[..|r| - 1] == [];
    } else {
      DecimalRoundTrip(n / 10);
      DigitRoundTrip(n % 10);
      assert r[..|r| - 1] == Decimal(n / 10);
    }
  }

  /** The string a value converts to under `.` concatenation. */
  function ToPhpString(v: Value): (r: string)
    ensures v.Str? ==> r == v.s
    ensures v.Int? && v.i >= 0 ==> AllDigits(r)
    ensures v == Null || v == False ==> r == ""
  {
    match v
    case Null => ""
    case Bool(b) => if b then "1" else ""
    case Int(i) => if i < 0 then "-" + Decimal(-i) else Decimal(i)
    case Str(s) => s
    case Arr(_) => "Array"
  }
}
