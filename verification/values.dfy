/**
  The loosely typed payloads that the DTX (instruments) protocol and the lockdown
  protocol deliver, as one closed value type, plus the Go integer semantics the
  decoders rely on: 64-bit wrap-around, truncating division and `strconv.Itoa`.
*/
module Values {
  import opened Wrappers

  /** A decoded payload: what Go holds in an `interface{}`. `Null` is Go's nil. */
  datatype Value =
    | Null
    | Bool(b: bool)
    | Int(i: int)
    | Float(x: real)
    | Str(s: string)
    | List(items: seq<Value>)
    | Dict(entries: map<string, Value>)
    | NSError(code: int, domain: string, userInfo: Value)

  /** Go's `m[k]` on a `map[string]interface{}`: a missing key reads as nil. */
  function Lookup(m: map<string, Value>, k: string): (v: Value)
    ensures k !in m ==> v == Null
    ensures k in m ==> v == m[k]
  {
    if k in m then m[k] else Null
  }

  /** Go's `m[k] != nil`: the key is present and does not hold nil. */
  predicate HasNonNil(m: map<string, Value>, k: string) {
    Lookup(m, k) != Null
  }

  /** A list of strings, as Go passes a `[]string` inside an `interface{}`. */
  function StrList(names: seq<string>): (v: Value)
    ensures v.List? && |v.items| == |names|
    ensures forall i :: 0 <= i < |names| ==> v.items[i] == Str(names[i])
  {
    List(seq(|names|, i requires 0 <= i < |names| => Str(names[i])))
  }

  // ---------------------------------------------------------------------
  // 64-bit integers

  const TwoTo64: int := 0x1_0000_0000_0000_0000
  const MinInt64: int := -0x8000_0000_0000_0000
  const MaxInt64: int := 0x7fff_ffff_ffff_ffff

  type Int64 = x: int | MinInt64 <= x <= MaxInt64

  /** The int64 representative of `x` modulo 2^64. */
  function WrapValue(x: int): int {
    var m := x % TwoTo64;
    if m <= MaxInt64 then m else m - TwoTo64
  }

  lemma WrapValueFacts(x: int)
    ensures MinInt64 <= WrapValue(x) <= MaxInt64
    ensures MinInt64 <= x <= MaxInt64 ==> WrapValue(x) == x
  {
    if MinInt64 <= x <= MaxInt64 {
      if x >= 0 {
        assert x / TwoTo64 == 0;
      } else {
        assert x / TwoTo64 == -1;
      }
    }
  }

  /** Two's-complement wrap-around of a mathematical integer into int64. */
  function Wrap64(x: int): (r: Int64)
    ensures MinInt64 <= x <= MaxInt64 ==> r == x
    ensures (r - x) % TwoTo64 == 0
  {
    WrapValueFacts(x);
    WrapValue(x)
  }

  /** Go's `v.(uint64)` on a decoded integer: succeeds exactly for the uint64 range. */
  function AsUint64(v: Value): (r: Option<nat>)
    ensures r.Some? <==> v.Int? && 0 <= v.i < TwoTo64
    ensures r.Some? ==> r.value == v.i
  {
    if v.Int? && 0 <= v.i < TwoTo64 then Some(v.i) else None
  }

  function Abs(x: int): nat {
    if x < 0 then -x else x
  }

  /** Go's integer `/`, which truncates toward zero (Dafny's `/` is Euclidean). */
  function GoDiv(a: int, b: int): (q: int)
    requires b != 0
    ensures Abs(a - q * b) < Abs(b)
    ensures a - q * b == 0 || (a - q * b < 0) == (a < 0)
  {
    var q0 := Abs(a) / Abs(b);
    var r0 := Abs(a) % Abs(b);
    assert Abs(a) == q0 * Abs(b) + r0;
    var q := if (a >= 0) == (b > 0) then q0 else -q0;
    assert q * b == (if a >= 0 then q0 * Abs(b) else -(q0 * Abs(b)));
    q
  }

  // ---------------------------------------------------------------------
  // strconv.Itoa and its inverse

  predicate IsDigit(c: char) {
    '0' <= c <= '9'
  }

  predicate AllDigits(s: string) {
    forall i :: 0 <= i < |s| ==> IsDigit(s[i])
  }

  function DigitChar(d: nat): (c: char)
    requires d < 10
    ensures IsDigit(c) && c as int - '0' as int == d
  {
    ('0' as int + d) as char
  }

  /** The decimal spelling of a natural number, most significant digit first. */
  function NatDigits(n: nat): (s: string)
    ensures |s| >= 1 && AllDigits(s)
    // no leading zero: only 0 itself is spelled with a '0' first
    ensures s[0] == '0' ==> n == 0
    decreases n
  {
    if n < 10 then [DigitChar(n)] else NatDigits(n / 10) + [DigitChar(n % 10)]
  }

  /** `strconv.Itoa`: an optional minus sign followed by the digits of |n|. */
  function DecimalString(n: int): (s: string)
    ensures |s| >= 1
    ensures s[0] == '-' <==> n < 0
    ensures AllDigits(if n < 0 then s[1..] else s)
    // the canonical form: digits follow any sign, with no leading zero except for 0 itself
    ensures var d := if n < 0 then s[1..] else s; |d| >= 1 && (d[0] == '0' ==> n == 0)
  {
    if n < 0 then "-" + NatDigits(-n) else NatDigits(n)
  }

  /** Reads a non-empty string of digits as a natural number. */
  function ParseDigits(s: string): nat
    requires |s| >= 1 && AllDigits(s)
    decreases |s|
  {
    var last := s[|s| - 1] as int - '0' as int;
    if |s| == 1 then last else ParseDigits(s[..|s| - 1]) * 10 + last
  }

  /**
    Reads an optional minus sign followed by decimal digits. Non-canonical
    spellings such as "05" and "-0" are accepted too; `DecimalString` never
    writes them.
  */
  function ParseDecimal(s: string): Option<int> {
    if |s| >= 2 && s[0] == '-' && AllDigits(s[1..]) then Some(0 - ParseDigits(s[1..]) as int)
    else if |s| >= 1 && AllDigits(s) then Some(ParseDigits(s))
    else None
  }

  lemma {:induction false} NatDigitsRoundTrip(n: nat)
    ensures ParseDigits(NatDigits(n)) == n
    decreases n
  {
    if n >= 10 {
      var s := NatDigits(n);
      assert s[..|s| - 1] == NatDigits(n / 10);
      NatDigitsRoundTrip(n / 10);
    }
  }

  /** Parsing the decimal spelling of any integer gives the integer back. */
  lemma DecimalRoundTrip(n: int)
    ensures ParseDecimal(DecimalString(n)) == Some(n)
  {
    var s := DecimalString(n);
    if n < 0 {
      assert s[1..] == NatDigits(-n);
      NatDigitsRoundTrip(-n);
    } else {
      NatDigitsRoundTrip(n);
    }
  }

  /** Distinct integers have distinct decimal spellings. */
  lemma DecimalInjective(a: int, b: int)
    ensures DecimalString(a) == DecimalString(b) ==> a == b
  {
    DecimalRoundTrip(a);
    DecimalRoundTrip(b);
  }
}

/** The error values the modelled operations return in place of Go's `error`. */
module Errors {
  import opened Values

  datatype Error =
    | ChannelRefused(service: string)   // MakeChannel failed for this service name
    | EncodeFailed(argument: Value)     // AuxBuffer.AppendObject failed
    | SendFailed                        // SendDTXMessage failed
    | ReplyFailed(msgId: nat)           // GetResult failed for this message id
    | Remote(description: Value)        // NSError reply: its NSLocalizedDescription
    | Panic(reason: string)             // a Go run-time panic (type assertion, index, nil)
    | Message(text: string)             // errors.New / fmt.Errorf with this text
    | Transport(step: string)           // a usbmux or lockdown exchange failed at this step
    | Fatal(reason: string)             // log.Fatal: the process exits
}
