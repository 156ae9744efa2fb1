/** JSON values, and their conversion into the protobuf Struct the gateway takes. */
module Json {
  import opened Wrappers

  /** A number is an integer, or a double as the parser read it. */
  datatype Json =
    | Null
    | Bool(flag: bool)
    | Number(n: int)
    | Fraction(r: real)
    | String(text: string)
    | Array(items: seq<Json>)
    | Object(fields: map<string, Json>)

  datatype Value =
    | NullValue
    | BoolValue(flag: bool)
    | NumberValue(r: real)
    | StringValue(text: string)
    | ListValue(values: seq<Value>)
    | StructValue(struct: Struct)

  datatype Struct = Struct(fields: map<string, Value>)

  /** How many integers in a row a double holds exactly. */
  const EXACT: int := 0x20_0000_0000_0000

  /** The multiple of `unit` nearest to `n`, the even one of two. */
  function Nearest(n: nat, unit: nat): nat
    requires unit > 0
  {
    Rounding(n / unit, n % unit, unit)
  }

  /** `q` units and a rest, rounded to whole units. */
  function Rounding(q: nat, rest: nat, unit: nat): nat {
    if 2 * rest < unit || (2 * rest == unit && q % 2 == 0) then q * unit else (q + 1) * unit
  }

  /** The double nearest to `n`, whose last place is worth `unit` or more. */
  function Rounded(n: nat, unit: nat): nat
    requires unit > 0
    decreases n - EXACT * unit
  {
    if n <= EXACT * unit then Nearest(n, unit) else Rounded(n, 2 * unit)
  }

  function ToDouble(n: int): real {
    if n >= 0 then Rounded(n, 1) as real else -(Rounded(-n, 1) as real)
  }

  function ToValue(j: Json): Value
    decreases j, 1
  {
    match j
    case Null => NullValue
    case Bool(flag) => BoolValue(flag)
    case Number(n) => NumberValue(ToDouble(n))
    case Fraction(r) => NumberValue(r)
    case String(text) => StringValue(text)
    case Array(items) => ListValue(seq(|items|, i requires 0 <= i < |items| => ToValue(items[i])))
    case Object(_) => StructValue(ToStruct(j))
  }

  /** A value that is not an object collapses to the empty struct. */
  function ToStruct(j: Json): Struct
    decreases j, 0
  {
    if j.Object? then Struct(map k | k in j.fields :: ToValue(j.fields[k])) else Struct(map[])
  }

  function AsDouble(j: Json): Option<real> {
    match j
    case Number(n) => Some(ToDouble(n))
    case Fraction(r) => Some(r)
    case _ => None
  }

  /** Alike but for numbers that a double does not tell apart. */
  predicate Alike(a: Json, b: Json)
    decreases a
  {
    if AsDouble(a).Some? || AsDouble(b).Some? then AsDouble(a) == AsDouble(b)
    else if a.Array? && b.Array? then
      |a.items| == |b.items| && forall i | 0 <= i < |a.items| :: Alike(a.items[i], b.items[i])
    else if a.Object? && b.Object? then
      a.fields.Keys == b.fields.Keys && forall k | k in a.fields :: k in b.fields && Alike(a.fields[k], b.fields[k])
    else a == b
  }

  /** The conversion loses nothing but what a double cannot tell apart. */
  lemma {:induction false} SameValueExactly(a: Json, b: Json)
    ensures ToValue(a) == ToValue(b) <==> Alike(a, b)
    decreases a, 1
  {
    if a.Array? && b.Array? {
      ArraysAlike(a, b);
    } else if a.Object? && b.Object? {
      SameStructExactly(a, b);
    }
  }

  lemma {:induction false} ArraysAlike(a: Json, b: Json)
    requires a.Array? && b.Array?
    ensures ToValue(a) == ToValue(b) <==> Alike(a, b)
    decreases a, 0
  {
    var x, y := ToValue(a).values, ToValue(b).values;
    forall i | 0 <= i < |a.items| && i < |b.items| ensures x[i] == y[i] <==> Alike(a.items[i], b.items[i]) {
      SameValueExactly(a.items[i], b.items[i]);
    }
    assert |x| == |a.items| && |y| == |b.items|;
    if Alike(a, b) {
      assert x == y;
    }
  }

  /** Two objects become equal Structs exactly if they are alike. */
  lemma {:induction false} SameStructExactly(a: Json, b: Json)
    requires a.Object? && b.Object?
    ensures ToStruct(a) == ToStruct(b) <==> Alike(a, b)
    decreases a, 0
  {
    var x, y := ToStruct(a).fields, ToStruct(b).fields;
    assert x.Keys == a.fields.Keys && y.Keys == b.fields.Keys;
    forall k | k in a.fields && k in b.fields ensures x[k] == y[k] <==> Alike(a.fields[k], b.fields[k]) {
      SameValueExactly(a.fields[k], b.fields[k]);
    }
    if Alike(a, b) {
      assert x == y;
    }
  }

  /** Every number is an integer that a double holds exactly. */
  predicate Exact(j: Json) {
    match j
    case Number(n) => -EXACT <= n <= EXACT
    case Fraction(_) => false
    case Array(items) => forall i | 0 <= i < |items| :: Exact(items[i])
    case Object(fields) => forall k | k in fields :: Exact(fields[k])
    case _ => true
  }

  lemma {:induction false} AlikeIsEqual(a: Json, b: Json)
    requires Exact(a) && Exact(b) && Alike(a, b)
    ensures a == b
    decreases a
  {
    if a.Array? {
      forall i | 0 <= i < |a.items| ensures a.items[i] == b.items[i] {
        AlikeIsEqual(a.items[i], b.items[i]);
      }
      assert a.items == b.items;
    } else if a.Object? {
      forall k | k in a.fields ensures a.fields[k] == b.fields[k] {
        AlikeIsEqual(a.fields[k], b.fields[k]);
      }
      assert a.fields == b.fields;
    }
  }

  /** Where every number is exact, distinct objects stay distinct. */
  lemma ToStructInjective(a: Json, b: Json)
    requires Exact(a) && Exact(b) && a.Object? && b.Object?
    ensures ToStruct(a) == ToStruct(b) <==> a == b
  {
    SameStructExactly(a, b);
    if Alike(a, b) {
      AlikeIsEqual(a, b);
    }
  }

  // ----- What the gateway reads -----

  /** The JSON value a Value stands for; a whole number is an integer again. */
  function Read(v: Value): Json
    decreases v, 1
  {
    match v
    case NullValue => Null
    case BoolValue(flag) => Bool(flag)
    case NumberValue(r) => if r.Floor as real == r then Number(r.Floor) else Fraction(r)
    case StringValue(text) => String(text)
    case ListValue(values) => Array(seq(|values|, i requires 0 <= i < |values| => Read(values[i])))
    case StructValue(struct) => ReadStruct(struct)
  }

  function ReadStruct(s: Struct): Json
    decreases s, 0
  {
    Object(map k | k in s.fields :: Read(s.fields[k]))
  }

  /** Where every number is exact, it reads what was sent. */
  lemma {:induction false} ReadsBack(j: Json)
    requires Exact(j)
    ensures Read(ToValue(j)) == j
    decreases j, 1
  {
    match j
    case Array(_) => ArrayReadsBack(j);
    case Object(_) => StructReadsBack(j);
    case Number(n) => ExactStays(n);
    case _ =>
  }

  lemma ExactStays(n: int)
    requires -EXACT <= n <= EXACT
    ensures ToDouble(n) == n as real
  {
    assert Rounded(if n >= 0 then n else -n, 1) == if n >= 0 then n else -n;
  }

  lemma {:induction false} ArrayReadsBack(j: Json)
    requires Exact(j) && j.Array?
    ensures Read(ToValue(j)) == j
    decreases j, 0
  {
    forall i | 0 <= i < |j.items| ensures Read(ToValue(j.items[i])) == j.items[i] {
      ReadsBack(j.items[i]);
    }
    assert Read(ToValue(j)).items == j.items;
  }

  lemma {:induction false} StructReadsBack(j: Json)
    requires Exact(j) && j.Object?
    ensures ReadStruct(ToStruct(j)) == j
    decreases j, 0
  {
    forall k | k in j.fields ensures Read(ToValue(j.fields[k])) == j.fields[k] {
      ReadsBack(j.fields[k]);
    }
    assert ReadStruct(ToStruct(j)).fields == j.fields;
  }

  /** Any other integer reaches it as the nearest double: the closest multiple of a unit of
      which `n` is at least half of EXACT many, and of two the even one. */
  lemma {:induction false} RoundedIsNearest(n: nat, unit: nat) returns (u: nat, m: nat)
    requires unit > 0
    ensures u >= unit && n <= EXACT * u && (u == unit || 2 * n > EXACT * u)
    ensures Rounded(n, unit) == m * u && Closest(n, m * u, u, m)
    decreases n - EXACT * unit
  {
    if n <= EXACT * unit {
      u := unit;
      m := NearestIsClosest(n, unit);
    } else {
      u, m := RoundedIsNearest(n, 2 * unit);
    }
  }

  /** `d`, the `m`-th multiple of `u`, is within half a unit of `n`; if just half, `m` is even. */
  predicate Closest(n: int, d: int, u: int, m: nat) {
    -u <= 2 * (d - n) <= u && (2 * (d - n) == u || 2 * (d - n) == -u ==> m % 2 == 0)
  }

  lemma NearestIsClosest(n: nat, unit: nat) returns (m: nat)
    requires unit > 0
    ensures Nearest(n, unit) == m * unit && Closest(n, m * unit, unit, m)
  {
    DivMod(n, unit);
    m := RoundingIsClosest(n / unit, n % unit, unit);
  }

  lemma RoundingIsClosest(q: nat, rest: nat, unit: nat) returns (m: nat)
    requires rest < unit
    ensures Rounding(q, rest, unit) == m * unit && Closest(q * unit + rest, m * unit, unit, m)
  {
    m := if 2 * rest < unit || (2 * rest == unit && q % 2 == 0) then q else q + 1;
    NextMultiple(q, unit);
  }

  lemma NextMultiple(q: nat, unit: nat)
    ensures (q + 1) * unit == q * unit + unit
  {
  }

  lemma DivMod(n: nat, unit: nat)
    requires unit > 0
    ensures n == n / unit * unit + n % unit && 0 <= n % unit < unit
  {
  }

  /** Past what a double holds, and between an integer and an equal double, they do not. */
  lemma RoundingCollides()
    ensures Alike(Number(EXACT), Number(EXACT + 1)) && Alike(Number(1), Fraction(1.0))
  {
    assert Rounded(EXACT, 1) == EXACT;
    assert Rounded(EXACT + 1, 1) == Rounded(EXACT + 1, 2) == Nearest(EXACT + 1, 2) == EXACT;
  }

  // ----- Small builders -----

  /** An optional value, `null` when absent. */
  function Nullable(text: Option<string>): Json {
    if text.Some? then String(text.value) else Null
  }

  function Strings(texts: map<string, string>): Json {
    Object(map k | k in texts :: String(texts[k]))
  }

  function StringList(texts: seq<string>): Json {
    Array(seq(|texts|, i requires 0 <= i < |texts| => String(texts[i])))
  }

  /** A field present only when it has a value. */
  function Field(key: string, value: Option<Json>): map<string, Json> {
    if value.Some? then map[key := value.value] else map[]
  }

  function Text(text: Option<string>): Option<Json> {
    if text.Some? then Some(String(text.value)) else None
  }

  lemma TextSent(text: string)
    ensures ToValue(String(text)) == StringValue(text)
  {
  }

  lemma ObjectSent(j: Json)
    requires j.Object?
    ensures ToValue(j) == StructValue(ToStruct(j)) && ToStruct(j).fields.Keys == j.fields.Keys
    ensures forall k <- j.fields :: ToStruct(j).fields[k] == ToValue(j.fields[k])
  {
  }

  lemma OthersSentEmpty(j: Json)
    requires !j.Object?
    ensures ToStruct(j).fields == map[]
  {
  }

  lemma StringsInjective(a: map<string, string>, b: map<string, string>)
    ensures Strings(a) == Strings(b) <==> a == b
  {
    if Strings(a) == Strings(b) {
      assert a.Keys == Strings(a).fields.Keys == Strings(b).fields.Keys == b.Keys;
      forall k | k in a ensures a[k] == b[k] {
        assert Strings(a).fields[k] == Strings(b).fields[k];
      }
      assert a == b;
    }
  }
}
