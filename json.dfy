/** JSON values as `JSON.parse` produces them, and the JavaScript operations
    on them that the model-config loader relies on: property reads,
    truthiness and object spread. */
module JsonValues {
  import opened Wrappers

  /** The exact value `significand * 10^exponent` of a number. */
  datatype NumberValue = NumberValue(significand: int, exponent: int)

  /** A finite JSON number in canonical decimal form: no trailing zero in
      the significand, and zero written only as 0 * 10^0. Every finite
      double has exactly one such form; `IsDouble` says which forms are
      doubles. */
  type Number = n: NumberValue | n.significand % 10 != 0 || n == NumberValue(0, 0)
    witness NumberValue(0, 0)

  function Pow(b: nat, e: nat): (p: nat)
    ensures b > 0 ==> p > 0
  {
    if e == 0 then 1 else b * Pow(b, e - 1)
  }

  /** A non-zero integer as `odd * 2^k`. */
  function TwoAdic(a: int): (r: (int, nat))
    requires a != 0
    ensures r.0 % 2 == 1 && r.0 * Pow(2, r.1) == a
    decreases if a < 0 then -a else a
  {
    if a % 2 == 1 then (a, 0)
    else
      var (odd, k) := TwoAdic(a / 2);
      (odd, k + 1)
  }

  /** `odd * 2^k` is an IEEE 754 double: some `m * 2^e` with `|m| < 2^53`
      and `-1074 <= e <= 971` equals it. */
  predicate FitsDouble(odd: int, k: int) {
    && k >= -1074
    && (if odd < 0 then -odd else odd) * Pow(2, if k > 971 then k - 971 else 0) < Pow(2, 53)
  }

  /** The number is exactly a finite double: its value is a dyadic
      rational `odd * 2^k` that fits the double format. One tenth, for
      one, is not. */
  predicate IsDouble(n: Number) {
    if n.significand == 0 then true
    else if n.exponent >= 0 then
      var (odd, k) := TwoAdic(n.significand * Pow(10, n.exponent));
      FitsDouble(odd, k)
    else
      var fives := Pow(5, -n.exponent);
      if n.significand % fives != 0 then false
      else
        var (odd, k) := TwoAdic(n.significand / fives);
        FitsDouble(odd, k + n.exponent)
  }

  /** A parsed JSON value. An object is a map from keys to values: the order
      of its keys only shows in the serialized text, which is not modelled. */
  datatype Json =
    | JNull
    | JBool(b: bool)
    | JNum(n: Number)
    | JString(s: string)
    | JArr(items: seq<Json>)
    | JObj(fields: map<string, Json>)

  /** Every number inside the value is a double, as for every value
      `JSON.parse` produces. */
  predicate DoubleValued(v: Json) {
    match v
    case JNum(n) => IsDouble(n)
    case JArr(items) => forall i :: 0 <= i < |items| ==> DoubleValued(items[i])
    case JObj(fields) => forall k :: k in fields ==> DoubleValued(fields[k])
    case _ => true
  }

  lemma {:induction false} PowTwoExceeds(e: nat)
    ensures Pow(2, e) > e
  {
    if e > 0 { PowTwoExceeds(e - 1); }
  }

  /** One half is a double. */
  lemma HalfIsDouble()
    ensures IsDouble(NumberValue(5, -1))
  {
    assert Pow(5, 1) == 5;
    assert TwoAdic(1) == (1, 0);
    PowTwoExceeds(53);
    assert Pow(2, 0) == 1;
    assert FitsDouble(1, -1);
  }

  /** One tenth is not: no dyadic rational equals it. */
  lemma TenthIsNotDouble()
    ensures !IsDouble(NumberValue(1, -1))
  {
    assert Pow(5, 1) == 5;
  }

  /** JavaScript truthiness of a property read; `None` is `undefined`.
      JSON has no NaN, so a number is falsy exactly when it is zero. The
      falsy values are exactly undefined, null, false, zero and "". */
  predicate Truthy(v: Option<Json>)
    ensures Truthy(v) <==> v !in {None, Some(JNull), Some(JBool(false)), Some(JNum(NumberValue(0, 0))), Some(JString(""))}
  {
    match v
    case None => false
    case Some(JNull) => false
    case Some(JBool(b)) => b
    case Some(JNum(n)) => n.significand != 0
    case Some(JString(s)) => s != ""
    case Some(JArr(_)) => true
    case Some(JObj(_)) => true
  }

  /** `v[key]` on a value that is not null or undefined. Only objects have
      own properties under the keys the loader reads (`config`,
      `processor_config`, `tokenizer_config`, `chat_template`, `__type`,
      `content`); arrays, strings, numbers and booleans give `undefined`. */
  function Get(v: Json, key: string): (r: Option<Json>)
    ensures r.Some? <==> v.JObj? && key in v.fields
    ensures r.Some? ==> r.value == v.fields[key]
  {
    match v
    case JObj(fields) => if key in fields then Some(fields[key]) else None
    case _ => None
  }

  /** `v.key` where `v` may itself be `undefined` or `null`: reading a
      property of either throws a TypeError. */
  function Read(v: Option<Json>, key: string): (r: Result<Option<Json>, string>)
    ensures r.Failure? <==> v.None? || v == Some(JNull)
    ensures r.Success? ==> r.value == Get(v.value, key)
  {
    match v
    case None => Failure("Cannot read properties of undefined (reading '" + key + "')")
    case Some(JNull) => Failure("Cannot read properties of null (reading '" + key + "')")
    case Some(j) => Success(Get(j, key))
  }

  /** The decimal digit for `d`. */
  function DigitChar(d: nat): (c: char)
    requires d < 10
    ensures c as int == '0' as int + d
  {
    ('0' as int + d) as char
  }

  /** The canonical decimal text of an index, as JavaScript spells an array
      index when it becomes a property key. */
  function Decimal(n: nat): (s: string)
    ensures |s| >= 1
    ensures n < 10 <==> |s| == 1
    ensures s[|s| - 1] == DigitChar(n % 10)
    decreases n
  {
    if n < 10 then [DigitChar(n)] else Decimal(n / 10) + [DigitChar(n % 10)]
  }

  /** Distinct indices have distinct decimal keys. */
  lemma {:induction false} DecimalInjective(a: nat, b: nat)
    requires Decimal(a) == Decimal(b)
    ensures a == b
    decreases a
  {
    if a >= 10 && b >= 10 {
      var sa, sb := Decimal(a), Decimal(b);
      assert sa == Decimal(a / 10) + [DigitChar(a % 10)];
      assert sb == Decimal(b / 10) + [DigitChar(b % 10)];
      assert Decimal(a / 10) == sa[..|sa| - 1];
      assert Decimal(b / 10) == sb[..|sb| - 1];
      DecimalInjective(a / 10, b / 10);
    }
  }

  lemma DecimalsDistinct()
    ensures forall a: nat, b: nat :: Decimal(a) == Decimal(b) ==> a == b
  {
    forall a: nat, b: nat | Decimal(a) == Decimal(b)
      ensures a == b
    {
      DecimalInjective(a, b);
    }
  }

  /** The own enumerable properties of an array-like value: element `i`
      under the key `Decimal(i)`. */
  function IndexKeyed(items: seq<Json>): (m: map<string, Json>)
    ensures forall i :: 0 <= i < |items| ==> Decimal(i) in m && m[Decimal(i)] == items[i]
    ensures forall k :: k in m ==> exists i :: 0 <= i < |items| && Decimal(i) == k
  {
    DecimalsDistinct();
    map i | 0 <= i < |items| :: Decimal(i) := items[i]
  }

  /** The own enumerable properties of a string: character `i`, as a
      one-character string, under the key `Decimal(i)`. */
  function CharKeyed(s: string): (m: map<string, Json>)
    ensures forall i :: 0 <= i < |s| ==> Decimal(i) in m && m[Decimal(i)] == JString([s[i]])
    ensures forall k :: k in m ==> exists i :: 0 <= i < |s| && Decimal(i) == k
  {
    var chars := seq(|s|, i requires 0 <= i < |s| => JString([s[i]]));
    assert forall i :: 0 <= i < |s| ==> chars[i] == JString([s[i]]);
    IndexKeyed(chars)
  }

  /** The properties `{...v}` copies out of a value: an object's own fields,
      an array's elements or a string's characters under their index keys,
      and nothing for null, booleans and numbers. */
  function Spread(v: Json): (m: map<string, Json>)
    ensures v.JObj? ==> m == v.fields
    ensures v.JNull? || v.JBool? || v.JNum? ==> m == map[]
    ensures v.JArr? ==> forall i :: 0 <= i < |v.items| ==> Decimal(i) in m && m[Decimal(i)] == v.items[i]
    ensures v.JArr? ==> forall k :: k in m ==> exists i :: 0 <= i < |v.items| && Decimal(i) == k
    ensures v.JString? ==> forall i :: 0 <= i < |v.s| ==> Decimal(i) in m && m[Decimal(i)] == JString([v.s[i]])
    ensures v.JString? ==> forall k :: k in m ==> exists i :: 0 <= i < |v.s| && Decimal(i) == k
  {
    match v
    case JObj(fields) => fields
    case JArr(items) => IndexKeyed(items)
    case JString(s) => CharKeyed(s)
    case _ => map[]
  }
}
