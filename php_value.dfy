/**
 * PHP values as the plugin and the maib SDK see them: the result of
 * `json_decode`, request parameter arrays, transient contents.
 *
 * A PHP string is a byte string; each char of a `string` here holds one
 * byte, so `|s|` is PHP's `strlen($s)` and `s[..n]` is `substr($s, 0, n)`.
 * A PHP array (list or dictionary) is an ordered sequence of entries with
 * string keys: integer keys are kept as their decimal text, which is how
 * `ksort(..., SORT_STRING)` compares them anyway. Numbers are exact
 * decimals `mantissa / 10^scale`.
 */
module PhpValue {

  datatype Option<+T> = None | Some(value: T)

  datatype Result<+T, +E> = Ok(value: T) | Err(error: E)

  datatype Value =
    | VNull
    | VBool(b: bool)
    | VNum(mantissa: int, scale: nat)
    | VStr(s: string)
    | VArray(entries: seq<Entry>)

  datatype Entry = Entry(key: string, val: Value)

  function Pow10(n: nat): (r: nat)
    ensures r >= 1
  {
    if n == 0 then 1 else 10 * Pow10(n - 1)
  }

  /** The number a `VNum` stands for. */
  function RealOf(mantissa: int, scale: nat): real
  {
    mantissa as real / Pow10(scale) as real
  }

  function Keys(es: seq<Entry>): (ks: seq<string>)
    ensures |ks| == |es|
    ensures forall i :: 0 <= i < |es| ==> ks[i] == es[i].key
  {
    if es == [] then [] else [es[0].key] + Keys(es[1..])
  }

  /** A PHP array never holds the same key twice. */
  ghost predicate UniqueKeys(es: seq<Entry>)
  {
    forall i, j :: 0 <= i < j < |es| ==> es[i].key != es[j].key
  }

  /** Index of the entry with key `k`, or `|es|` when there is none. */
  function IndexOf(es: seq<Entry>, k: string): (i: nat)
    ensures i <= |es|
    ensures i < |es| ==> es[i].key == k
    ensures forall j :: 0 <= j < i ==> es[j].key != k
  {
    if es == [] then 0
    else if es[0].key == k then 0
    else 1 + IndexOf(es[1..], k)
  }

  /** `$v[$k]` when `$v` is an array holding key `$k`. */
  function Get(v: Value, k: string): (r: Option<Value>)
    ensures r.Some? <==> v.VArray? && IndexOf(v.entries, k) < |v.entries|
    ensures r.Some? ==> r.value == v.entries[IndexOf(v.entries, k)].val
  {
    if v.VArray? && IndexOf(v.entries, k) < |v.entries| then Some(v.entries[IndexOf(v.entries, k)].val)
    else None
  }

  /** `$v[$k] ?? null`: reading a missing key yields null. */
  function Field(v: Value, k: string): (r: Value)
    ensures Get(v, k).None? ==> r == VNull
    ensures Get(v, k).Some? ==> r == Get(v, k).value
  {
    match Get(v, k)
    case Some(x) => x
    case None => VNull
  }

  /** `isset($v[$k])`: the key is present and its value is not null. */
  predicate Isset(v: Value, k: string)
  {
    Get(v, k).Some? && Get(v, k).value != VNull
  }

  /** PHP's boolean conversion (`if ($v)`); `empty($v)` is its negation. */
  predicate Truthy(v: Value)
  {
    match v
    case VNull => false
    case VBool(b) => b
    case VNum(m, _) => m != 0
    case VStr(s) => s != "" && s != "0"
    case VArray(es) => es != []
  }

  function DigitChar(d: nat): char
    requires d < 10
  {
    (48 + d) as char
  }

  /** Decimal text of a natural number, as `strval` gives it. */
  function NatToString(n: nat): (s: string)
    ensures |s| >= 1
    decreases n
  {
    if n < 10 then [DigitChar(n)] else NatToString(n / 10) + [DigitChar(n % 10)]
  }

  function IntToString(i: int): string
  {
    if i < 0 then "-" + NatToString(-i) else NatToString(i)
  }

  /** `n` written with at least `width` digits, padded with leading zeros. */
  function PadDigits(n: nat, width: nat): (s: string)
    ensures |s| >= width
  {
    var t := NatToString(n);
    if |t| >= width then t else seq(width - |t|, _ => '0') + t
  }

  /** Text of the decimal `m / 10^scale` keeping exactly `scale` fraction digits. */
  function RenderFixed(m: int, scale: nat): string
  {
    var a: nat := if m < 0 then -m else m;
    var sign := if m < 0 then "-" else "";
    if scale == 0 then sign + NatToString(a)
    else sign + NatToString(WholePart(a, scale)) + "." + PadDigits(FractionPart(a, scale), scale)
  }

  /** `a / 10^scale`, digit by digit. */
  function WholePart(a: nat, scale: nat): nat
  {
    if scale == 0 then a else WholePart(a / 10, scale - 1)
  }

  /** `a % 10^scale`, digit by digit. */
  function FractionPart(a: nat, scale: nat): nat
  {
    if scale == 0 then 0 else a % 10 + 10 * FractionPart(a / 10, scale - 1)
  }

  /** Drop trailing zero fraction digits: 100.50 becomes 100.5, 100.00 becomes 100. */
  function Normalize(m: int, scale: nat): (r: (int, nat))
    ensures r.1 <= scale
    decreases scale
  {
    if scale > 0 && m % 10 == 0 then Normalize(m / 10, scale - 1) else (m, scale)
  }

  /** `(string)$v` for the values the callback flattens. */
  function StrCast(v: Value): string
  {
    match v
    case VNull => ""
    case VBool(b) => if b then "1" else ""
    case VNum(m, sc) => var n := Normalize(m, sc); RenderFixed(n.0, n.1)
    case VStr(s) => s
    case VArray(_) => "Array"
  }

  function DigitValue(c: char): nat
  {
    if '0' <= c <= '9' then (c as int - '0' as int) as nat else 0
  }

  /** Length of the run of decimal digits at the start of `s`. */
  function DigitRun(s: string): (n: nat)
    ensures n <= |s|
    ensures forall i :: 0 <= i < n ==> '0' <= s[i] <= '9'
    ensures n < |s| ==> !('0' <= s[n] <= '9')
  {
    if s == [] || !('0' <= s[0] <= '9') then 0 else 1 + DigitRun(s[1..])
  }

  function DigitsValue(s: string): nat
  {
    if s == [] then 0 else DigitsValue(s[..|s| - 1]) * 10 + DigitValue(s[|s| - 1])
  }

  /** `(int)$s`: an optional sign followed by the leading digits; anything else gives 0. */
  function StrToInt(s: string): int
  {
    if s != [] && (s[0] == '-' || s[0] == '+') then
      var n: int := DigitsValue(s[1..][..DigitRun(s[1..])]);
      if s[0] == '-' then -n else n
    else DigitsValue(s[..DigitRun(s)])
  }

  /** `(int)$v`: numbers are truncated toward zero. */
  function IntCast(v: Value): int
  {
    match v
    case VNull => 0
    case VBool(b) => if b then 1 else 0
    case VNum(m, sc) => if m < 0 then 0 - WholePart(-m, sc) as int else WholePart(m, sc)
    case VStr(s) => StrToInt(s)
    case VArray(es) => if es == [] then 0 else 1
  }

  lemma {:induction false} NatToStringDigits(n: nat)
    ensures forall i :: 0 <= i < |NatToString(n)| ==> '0' <= NatToString(n)[i] <= '9'
  {
    if n >= 10 {
      NatToStringDigits(n / 10);
    }
  }

  /** Reading back the text of a natural number gives the number. */
  lemma {:induction false} DigitsValueOfNatToString(n: nat)
    ensures DigitsValue(NatToString(n)) == n
  {
    if n >= 10 {
      var t := NatToString(n);
      DigitsValueOfNatToString(n / 10);
      assert t[..|t| - 1] == NatToString(n / 10);
    }
  }

  lemma DigitRunOfDigits(s: string)
    requires forall i :: 0 <= i < |s| ==> '0' <= s[i] <= '9'
    ensures DigitRun(s) == |s|
  {
  }

  /** `(int)strval($n) == $n` for every natural number. */
  lemma StrToIntOfNatToString(n: nat)
    ensures StrToInt(NatToString(n)) == n
  {
    var t := NatToString(n);
    NatToStringDigits(n);
    DigitRunOfDigits(t);
    assert t[..|t|] == t;
    DigitsValueOfNatToString(n);
  }
}
