/** Python values as the scanner, the web layer and the screens handle them:
    the attribute values of a telemetry object and the values stored in a scan
    record (a dict from key to value). Truthiness, `str()`, slicing, joining and
    tuple unpacking are given here once and used by every other module. */
module Values {
  import opened Wrappers

  datatype Value =
    | VNone
    | VBool(b: bool)
    | VInt(i: int)
    | VStr(s: string)
    | VBytes(bytes: seq<bv8>)
    /** Any other object (a float, a hash-rate object, an error object):
        its `str()` form and its truth value. */
    | VObj(text: string, truthy: bool)
    | VList(items: seq<Value>)
    | VTuple(items: seq<Value>)
    | VDict(entries: map<string, Value>)

  /** A scan record: a flat dict from field name to value. */
  type Record = map<string, Value>

  /** Python truthiness (`bool(v)`). */
  predicate Truthy(v: Value) {
    match v
    case VNone => false
    case VBool(b) => b
    case VInt(i) => i != 0
    case VStr(s) => s != []
    case VBytes(bs) => bs != []
    case VObj(_, t) => t
    case VList(items) => items != []
    case VTuple(items) => items != []
    case VDict(entries) => entries != map[]
  }

  /** Python's `a or b`. */
  function Or(a: Value, b: Value): Value {
    if Truthy(a) then a else b
  }

  /** `d.get(key, default)`. */
  function Get(d: Record, key: string, default: Value): Value {
    if key in d then d[key] else default
  }

  /** `value or []` seen as a list: the elements when the value is a non-empty
      list, and no elements when it is falsy. A truthy value that is not a list
      is not a list the screens can walk (see `ListItems`). */
  predicate IsListOrFalsy(v: Value) {
    !Truthy(v) || v.VList?
  }

  function ListItems(v: Value): seq<Value>
    requires IsListOrFalsy(v)
  {
    if Truthy(v) then v.items else []
  }

  // ---------------------------------------------------------------- str()

  function DigitChar(d: nat): (c: char)
    requires d < 10
    ensures '0' <= c <= '9'
  {
    ('0' as int + d) as char
  }

  predicate AllDigits(s: string) {
    forall k :: 0 <= k < |s| ==> '0' <= s[k] <= '9'
  }

  /** The decimal digits of a natural number, most significant first. */
  function NatDigits(n: nat): string
    decreases n
  {
    if n < 10 then [DigitChar(n)] else NatDigits(n / 10) + [DigitChar(n % 10)]
  }

  /** The decimal form is a non-empty run of digits without a leading zero
      (except for 0 itself). */
  lemma {:induction false} NatDigitsShape(n: nat)
    ensures |NatDigits(n)| >= 1 && AllDigits(NatDigits(n))
    ensures n >= 10 ==> NatDigits(n)[0] != '0'
    decreases n
  {
    if n >= 10 {
      NatDigitsShape(n / 10);
      var r := NatDigits(n);
      assert r == NatDigits(n / 10) + [DigitChar(n % 10)];
      assert r[0] == NatDigits(n / 10)[0];
      if n / 10 < 10 {
        assert NatDigits(n / 10) == [DigitChar(n / 10)];
      }
    }
  }

  /** `str(i)` for a Python int. */
  function Decimal(i: int): string {
    if i < 0 then "-" + NatDigits(-i) else NatDigits(i)
  }

  /** The number a string of decimal digits denotes: the reading back of `NatDigits`. */
  function DigitsValue(s: string): nat
    requires AllDigits(s)
  {
    if s == [] then 0 else DigitsValue(s[..|s| - 1]) * 10 + (s[|s| - 1] as int - '0' as int)
  }

  /** Reads an optional minus sign followed by at least one digit. */
  function ParseDecimal(s: string): Option<int> {
    if |s| >= 2 && s[0] == '-' && AllDigits(s[1..]) then Some(0 - DigitsValue(s[1..]))
    else if |s| >= 1 && AllDigits(s) then Some(DigitsValue(s))
    else None
  }

  lemma {:induction false} NatDigitsRoundTrip(n: nat)
    ensures |NatDigits(n)| >= 1 && AllDigits(NatDigits(n)) && DigitsValue(NatDigits(n)) == n
    decreases n
  {
    NatDigitsShape(n);
    if n >= 10 {
      var r := NatDigits(n);
      NatDigitsRoundTrip(n / 10);
      assert r[..|r| - 1] == NatDigits(n / 10);
    }
  }

  /** A run of digits reads back as its value. */
  lemma DigitsParse(digits: string)
    requires |digits| >= 1 && AllDigits(digits)
    ensures ParseDecimal(digits) == Some(DigitsValue(digits))
  {
    assert '0' <= digits[0] <= '9';
  }

  /** A minus sign followed by a run of digits reads back as the negated value. */
  lemma SignedDigitsParse(digits: string)
    requires |digits| >= 1 && AllDigits(digits)
    ensures ParseDecimal("-" + digits) == Some(0 - DigitsValue(digits))
  {
    var d := "-" + digits;
    assert d[0] == '-' && d[1..] == digits;
  }

  /** `str()` of an int reads back as the same int: the decimal form is exact. */
  lemma DecimalRoundTrip(i: int)
    ensures ParseDecimal(Decimal(i)) == Some(i)
  {
    if i < 0 {
      var n: nat := -i;
      var digits := NatDigits(n);
      NatDigitsRoundTrip(n);
      SignedDigitsParse(digits);
      assert ParseDecimal("-" + digits) == Some(i);
      assert Decimal(i) == "-" + digits;
    } else {
      var digits := NatDigits(i);
      NatDigitsRoundTrip(i);
      NatDigitsShape(i);
      DigitsParse(digits);
      assert Decimal(i) == digits;
    }
  }

  /** Python's `str(v)`. The `str()` of bytes, lists, tuples and dicts is Python's
      `repr`, which the model does not reproduce: those show as a fixed placeholder. */
  function Show(v: Value): string {
    match v
    case VNone => "None"
    case VBool(b) => if b then "True" else "False"
    case VInt(i) => Decimal(i)
    case VStr(s) => s
    case VBytes(_) => "b'...'"
    case VObj(text, _) => text
    case VList(_) => "[...]"
    case VTuple(_) => "(...)"
    case VDict(_) => "{...}"
  }

  // ---------------------------------------------------------------- strings

  /** Python's `s[:n]` for `n >= 0`. */
  function Prefix(s: string, n: nat): (r: string)
    ensures |r| <= n && r <= s
    ensures |s| <= n ==> r == s
    ensures |s| >= n ==> |r| == n
  {
    if |s| <= n then s else s[..n]
  }

  /** Python's `sep.join(parts)`. */
  function Join(sep: string, parts: seq<string>): string {
    if parts == [] then ""
    else if |parts| == 1 then parts[0]
    else parts[0] + sep + Join(sep, parts[1..])
  }

  // ---------------------------------------------------------------- tuples

  /** What `for a, b in v` sees of `v`: its elements, or `None` where Python would
      raise (iterating an int, a bool, None, or an opaque object). A dict iterates
      its keys in insertion order, which a `map` does not keep: not modelled, `None`. */
  function Elements(v: Value): Option<seq<Value>> {
    match v
    case VList(items) => Some(items)
    case VTuple(items) => Some(items)
    case VStr(s) => Some(seq(|s|, k requires 0 <= k < |s| => VStr([s[k]])))
    case VBytes(bs) => Some(seq(|bs|, k requires 0 <= k < |bs| => VInt(bs[k] as int)))
    case _ => None
  }

  /** `a, b = v`: succeeds exactly when `v` iterates to two elements. */
  function Unpack2(v: Value): (r: Option<(Value, Value)>)
    ensures r.Some? <==> (Elements(v).Some? && |Elements(v).value| == 2)
    ensures r.Some? ==> r.value == (Elements(v).value[0], Elements(v).value[1])
  {
    match Elements(v)
    case Some(items) => if |items| == 2 then Some((items[0], items[1])) else None
    case None => None
  }

  /** A two-element tuple of strings, the shape of one worker entry. */
  function StrPair(a: string, b: string): Value {
    VTuple([VStr(a), VStr(b)])
  }
}
