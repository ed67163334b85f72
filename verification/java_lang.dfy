/**
 * The few pieces of java.lang behaviour the mapping layer leans on:
 * exceptions as a Result value, 32-bit int arithmetic, Integer.toString,
 * Integer.parseInt and String.split on a one-character class.
 */
module JavaLang {

  /** The exception a Java call would throw. */
  datatype Error =
    | IllegalArgument(message: string)
    | Runtime(message: string)
    | NumberFormat(message: string)
    | IndexOutOfBounds(message: string)
    | NullPointer(message: string)
    | NegativeArraySize(message: string)

  datatype Result<T> = Ok(value: T) | Fail(error: Error)

  datatype Option<T> = None | Some(value: T)

  const INT_MIN: int := -0x8000_0000
  const INT_MAX: int := 0x7fff_ffff

  predicate IsInt32(n: int) {
    INT_MIN <= n <= INT_MAX
  }

  /** Two's complement wrap-around of a Java `int` expression. */
  function Wrap32(n: int): (r: int)
    ensures IsInt32(r)
    ensures (r - n) % 0x1_0000_0000 == 0
    ensures IsInt32(n) ==> r == n
  {
    var m := n % 0x1_0000_0000;
    if m > INT_MAX then m - 0x1_0000_0000 else m
  }

  /** Java's `/` on ints truncates toward zero (Dafny's is Euclidean). */
  function JavaDiv(a: int, b: int): int
    requires b > 0
  {
    if a >= 0 then a / b else -((-a) / b)
  }

  predicate IsDigit(c: char) {
    '0' <= c <= '9'
  }

  predicate AllDigits(s: string) {
    forall i :: 0 <= i < |s| ==> IsDigit(s[i])
  }

  function DigitChar(d: nat): (c: char)
    requires d < 10
    ensures IsDigit(c) && (c as int) - ('0' as int) == d
  {
    ['0', '1', '2', '3', '4', '5', '6', '7', '8', '9'][d]
  }

  /** Decimal text of a natural number, most significant digit first. */
  function NatToString(n: nat): (s: string)
    ensures |s| >= 1 && AllDigits(s)
  {
    if n < 10 then [DigitChar(n)] else NatToString(n / 10) + [DigitChar(n % 10)]
  }

  /** Integer.toString: a leading '-' for negative values. */
  function IntToString(n: int): (s: string)
    ensures |s| >= 1
    ensures n >= 0 ==> AllDigits(s)
    ensures n < 0 ==> s[0] == '-' && AllDigits(s[1..])
  {
    if n >= 0 then NatToString(n) else "-" + NatToString(-n)
  }

  /** The value of a string of decimal digits. */
  function DigitsValue(s: string): nat
    requires AllDigits(s)
  {
    if s == [] then 0 else DigitsValue(s[..|s| - 1]) * 10 + ((s[|s| - 1] as int) - ('0' as int))
  }

  /**
   * Integer.parseInt for ASCII input: an optional sign, at least one digit,
   * and a value inside the int range; None stands for NumberFormatException.
   */
  function ParseInt(s: string): (r: Option<int>)
    ensures r.Some? ==> IsInt32(r.value)
    ensures r.Some? ==> |s| >= 1
  {
    if |s| == 0 then None
    else
      var body := if s[0] == '-' || s[0] == '+' then s[1..] else s;
      if |body| == 0 || !AllDigits(body) then None
      else
        var v: int := if s[0] == '-' then -(DigitsValue(body) as int) else DigitsValue(body);
        if IsInt32(v) then Some(v) else None
  }

  lemma {:induction false} DigitsOfNat(n: nat)
    ensures DigitsValue(NatToString(n)) == n
  {
    if n >= 10 {
      DigitsOfNat(n / 10);
      var s := NatToString(n);
      assert s[..|s| - 1] == NatToString(n / 10);
    }
  }

  /** Integer.parseInt(Integer.toString(n)) == n for every int. */
  lemma ParseIntToString(n: int)
    requires IsInt32(n)
    ensures ParseInt(IntToString(n)) == Some(n)
  {
    var s := IntToString(n);
    if n >= 0 {
      DigitsOfNat(n);
      assert s[0] != '-' && s[0] != '+';
    } else {
      DigitsOfNat(-n);
      assert s[1..] == NatToString(-n);
    }
  }

  /** Every field between separators, empty ones included. */
  function SplitAll(s: string, seps: set<char>): (r: seq<string>)
    ensures |r| >= 1
  {
    if |s| == 0 then [""]
    else if s[0] in seps then [""] + SplitAll(s[1..], seps)
    else
      var rest := SplitAll(s[1..], seps);
      [[s[0]] + rest[0]] + rest[1..]
  }

  function StripTrailingEmpty(r: seq<string>): seq<string> {
    if |r| == 0 || r[|r| - 1] != "" then r else StripTrailingEmpty(r[..|r| - 1])
  }

  predicate NoneOf(s: string, seps: set<char>) {
    forall i :: 0 <= i < |s| ==> s[i] !in seps
  }

  /**
   * String.split with a regular expression that matches one character of a
   * class: trailing empty fields are dropped, and a string without any
   * separator comes back whole.
   */
  function JavaSplit(s: string, seps: set<char>): seq<string> {
    if NoneOf(s, seps) then [s] else StripTrailingEmpty(SplitAll(s, seps))
  }

  lemma {:induction false} SplitAllNoSeparator(s: string, seps: set<char>)
    requires NoneOf(s, seps)
    ensures SplitAll(s, seps) == [s]
  {
    if |s| > 0 {
      SplitAllNoSeparator(s[1..], seps);
      assert [s[0]] + s[1..] == s;
    }
  }

  /** A field free of separators followed by a separator is split off whole. */
  lemma {:induction false} SplitAllField(x: string, sep: char, y: string, seps: set<char>)
    requires NoneOf(x, seps) && sep in seps
    ensures SplitAll(x + [sep] + y, seps) == [x] + SplitAll(y, seps)
  {
    if |x| == 0 {
      assert x + [sep] + y == [sep] + y;
      assert ([sep] + y)[1..] == y;
    } else {
      SplitAllField(x[1..], sep, y, seps);
      assert (x + [sep] + y)[1..] == x[1..] + [sep] + y;
      assert [x[0]] + x[1..] == x;
    }
  }

  function Count<T(==)>(s: seq<T>, x: T): (n: nat)
    ensures n == multiset(s)[x]
  {
    if s == [] then 0
    else
      assert s == [s[0]] + s[1..];
      (if s[0] == x then 1 else 0) + Count(s[1..], x)
  }
}
