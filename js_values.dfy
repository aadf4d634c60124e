/** JavaScript values, as far as the application's logic looks at them:
    truthiness, `Number(...)`, property lookup on plain objects, `delete`,
    `String.prototype.indexOf` and the decimal form of integers. */
module JsValues {

  /** A JavaScript value. Numbers are integers (fractions are not modelled);
      `Node` stands for a React element or a function, whose properties the
      application does not look at and which `Number` reads as NaN (arrays
      and `Date` objects are not values of the model); `Record` is a plain
      object given by its own enumerable properties, in property order. */
  datatype Value =
    | Undefined
    | Null
    | Bool(b: bool)
    | Num(n: int)
    | Str(s: string)
    | Node(id: nat)
    | Record(fields: seq<Field>)

  /** One own property of a plain object. */
  datatype Field = Field(name: string, value: Value)

  /** The result of a numeric conversion: an integer or NaN. */
  datatype Number = Finite(value: int) | NaN

  /** JavaScript truthiness: `undefined`, `null`, `false`, `0`, `NaN` and `""` are falsy. */
  predicate Truthy(v: Value) {
    match v
    case Undefined => false
    case Null => false
    case Bool(b) => b
    case Num(n) => n != 0
    case Str(s) => s != ""
    case Node(_) => true
    case Record(_) => true
  }

  /** The falsy values are exactly `undefined`, `null`, `false`, `0` and `""`;
      every other value, objects and elements included, is truthy. */
  lemma FalsyValues(v: Value)
    ensures !Truthy(v) <==> v == Undefined || v == Null || v == Bool(false) || v == Num(0) || v == Str("")
  {
  }

  /** `x === undefined ? d : x`, the way React applies a component's default props. */
  function WithDefault(v: Value, d: Value): (r: Value)
    ensures v != Undefined ==> r == v
    ensures v == Undefined ==> r == d
  {
    if v.Undefined? then d else v
  }

  // ---------------------------------------------------------------------------
  // Properties of plain objects

  /** `obj[name]` on a plain object: the value of the first property with that
      name, or `undefined` when there is none. */
  function Lookup(fields: seq<Field>, name: string): (r: Value)
    ensures (forall i :: 0 <= i < |fields| ==> fields[i].name != name) ==> r == Undefined
    ensures forall i :: 0 <= i < |fields| && fields[i].name == name &&
                        (forall j :: 0 <= j < i ==> fields[j].name != name) ==>
                          r == fields[i].value
  {
    if |fields| == 0 then Undefined
    else if fields[0].name == name then fields[0].value
    else Lookup(fields[1..], name)
  }

  /** `v[name]` on any value: `None` when JavaScript throws a TypeError (the
      value is `undefined` or `null`); objects the model does not look into and
      primitives have none of the application's property names. */
  function GetProperty(v: Value, name: string): (r: Option<Value>)
    ensures r.None? <==> (v.Undefined? || v.Null?)
    ensures v.Record? ==> r == Some(Lookup(v.fields, name))
  {
    match v
    case Undefined => None
    case Null => None
    case Record(fields) => Some(Lookup(fields, name))
    case _ => Some(Undefined)
  }

  datatype Option<T> = None | Some(value: T)

  /** `Object.values(obj)`: the property values, in property order. */
  function Values(fields: seq<Field>): (r: seq<Value>)
    ensures |r| == |fields|
    ensures forall i :: 0 <= i < |fields| ==> r[i] == fields[i].value
  {
    if |fields| == 0 then [] else [fields[0].value] + Values(fields[1..])
  }

  /** `delete obj[name]`: the properties that remain, in their order. */
  function Delete(fields: seq<Field>, name: string): (r: seq<Field>)
    ensures forall i :: 0 <= i < |r| ==> r[i].name != name
    ensures forall f :: f in r <==> f in fields && f.name != name
    ensures |r| <= |fields|
  {
    if |fields| == 0 then []
    else if fields[0].name == name then Delete(fields[1..], name)
    else [fields[0]] + Delete(fields[1..], name)
  }

  /** `delete` works property by property: the survivors of two runs of
      properties are the survivors of each, in the same order. With the
      one-property case `DeleteOne` this fixes the order of the
      remaining properties. */
  lemma {:induction false} DeleteConcat(a: seq<Field>, b: seq<Field>, name: string)
    ensures Delete(a + b, name) == Delete(a, name) + Delete(b, name)
  {
    if |a| > 0 {
      var ab := a + b;
      assert ab[0] == a[0];
      assert ab[1..] == a[1..] + b;
      var head := if a[0].name == name then [] else [a[0]];
      assert Delete(ab, name) == head + Delete(a[1..] + b, name);
      assert Delete(a, name) == head + Delete(a[1..], name);
      DeleteConcat(a[1..], b, name);
      assert head + (Delete(a[1..], name) + Delete(b, name)) == (head + Delete(a[1..], name)) + Delete(b, name);
    } else {
      assert a + b == b;
    }
  }

  /** A single property survives `delete` exactly when it has another name. */
  lemma DeleteOne(f: Field, name: string)
    ensures Delete([f], name) == (if f.name == name then [] else [f])
  {
  }

  /** Deleting a property leaves every other property's value as it was. */
  lemma {:induction false} LookupAfterDelete(fields: seq<Field>, name: string, other: string)
    requires other != name
    ensures Lookup(Delete(fields, name), other) == Lookup(fields, other)
    ensures Lookup(Delete(fields, name), name) == Undefined
  {
    if |fields| > 0 {
      LookupAfterDelete(fields[1..], name, other);
    }
  }

  // ---------------------------------------------------------------------------
  // Strings

  /** Whether `pat` occurs in `s` starting at `i`. */
  predicate OccursAt(s: string, pat: string, i: nat) {
    i + |pat| <= |s| && s[i..i + |pat|] == pat
  }

  /** `s.indexOf(pat)`: the first position where `pat` occurs, or -1. */
  function IndexOf(s: string, pat: string): (r: int)
    ensures -1 <= r <= |s|
    ensures r == -1 <==> forall i: nat :: i <= |s| ==> !OccursAt(s, pat, i)
    ensures r >= 0 ==> OccursAt(s, pat, r) && forall i: nat :: i < r ==> !OccursAt(s, pat, i)
    decreases |s|
  {
    if OccursAt(s, pat, 0) then 0
    else if |s| == 0 then -1
    else
      var k := IndexOf(s[1..], pat);
      ShiftOccurrence(s, pat);
      if k == -1 then -1 else assert OccursAt(s, pat, k + 1); k + 1
  }

  /** An occurrence in `s` after its first character is an occurrence in `s[1..]`. */
  lemma ShiftOccurrence(s: string, pat: string)
    requires |s| > 0
    ensures forall i: nat :: 1 <= i <= |s| ==> (OccursAt(s, pat, i) <==> OccursAt(s[1..], pat, i - 1))
  {
    forall i: nat | 1 <= i <= |s| ensures OccursAt(s, pat, i) <==> OccursAt(s[1..], pat, i - 1) {
      if i + |pat| <= |s| {
        var shifted := s[1..][i - 1..i - 1 + |pat|];
        assert forall k :: 0 <= k < |pat| ==> shifted[k] == s[i + k];
        assert shifted == s[i..i + |pat|];
      }
    }
  }

  // ---------------------------------------------------------------------------
  // Decimal numerals

  predicate IsDigit(c: char) { '0' <= c <= '9' }

  predicate AllDigits(s: string) { forall i :: 0 <= i < |s| ==> IsDigit(s[i]) }

  function DigitChar(d: nat): (c: char)
    requires d < 10
    ensures IsDigit(c) && c as int - '0' as int == d
  {
    ('0' as int + d) as char
  }

  /** The decimal numeral of a natural number, without leading zeros. */
  function DecimalNat(n: nat): (s: string)
    ensures |s| >= 1 && AllDigits(s)
    ensures (s[0] == '0') <==> n == 0
  {
    if n < 10 then [DigitChar(n)] else DecimalNat(n / 10) + [DigitChar(n % 10)]
  }

  /** The value of a string of decimal digits. */
  function ParseDigits(s: string): (n: nat)
    requires AllDigits(s)
  {
    if |s| == 0 then 0 else ParseDigits(s[..|s| - 1]) * 10 + (s[|s| - 1] as int - '0' as int)
  }

  /** `String(n)` for an integer. */
  function IntString(n: int): (s: string)
    ensures |s| >= 1
    ensures n >= 0 ==> AllDigits(s)
    ensures n < 0 ==> s[0] == '-' && AllDigits(s[1..])
  {
    if n < 0 then "-" + DecimalNat(-n) else DecimalNat(n)
  }

  /** `Number(s)` for a string: the empty string is 0, an optional sign followed
      by decimal digits is that integer, and anything else is NaN. */
  function StringToNumber(s: string): (r: Number)
    ensures AllDigits(s) ==> r == Finite(ParseDigits(s))
    ensures |s| >= 2 && s[0] == '-' && AllDigits(s[1..]) ==> r == Finite(-(ParseDigits(s[1..]) as int))
    ensures |s| >= 2 && s[0] == '+' && AllDigits(s[1..]) ==> r == Finite(ParseDigits(s[1..]))
    ensures r.Finite? ==> |s| == 0 || AllDigits(s) || (s[0] in "+-" && |s| >= 2 && AllDigits(s[1..]))
  {
    if AllDigits(s) then Finite(ParseDigits(s))
    else if |s| >= 2 && s[0] == '-' && AllDigits(s[1..]) then Finite(-(ParseDigits(s[1..]) as int))
    else if |s| >= 2 && s[0] == '+' && AllDigits(s[1..]) then Finite(ParseDigits(s[1..]))
    else NaN
  }

  /** `Number(v)`. */
  function ToNumber(v: Value): (r: Number)
    ensures v.Num? ==> r == Finite(v.n)
    ensures v.Undefined? || v.Node? || v.Record? ==> r == NaN
    ensures v.Null? ==> r == Finite(0)
  {
    match v
    case Undefined => NaN
    case Null => Finite(0)
    case Bool(b) => Finite(if b then 1 else 0)
    case Num(n) => Finite(n)
    case Str(s) => StringToNumber(s)
    case Node(_) => NaN
    case Record(_) => NaN
  }

  /** Reading a numeral back gives the number it was written from. */
  lemma {:induction false} ParseDecimalNat(n: nat)
    ensures ParseDigits(DecimalNat(n)) == n
  {
    var s := DecimalNat(n);
    if n >= 10 {
      ParseDecimalNat(n / 10);
      assert s[..|s| - 1] == DecimalNat(n / 10);
    }
  }

  /** `Number(String(n)) === n` for every integer `n`. */
  lemma NumberOfIntString(n: int)
    ensures StringToNumber(IntString(n)) == Finite(n)
    ensures ToNumber(Str(IntString(n))) == Finite(n)
  {
    if n < 0 {
      ParseDecimalNat(-n);
      assert IntString(n)[1..] == DecimalNat(-n);
    } else {
      ParseDecimalNat(n);
    }
  }

  /** Different integers have different numerals. */
  lemma IntStringInjective(a: int, b: int)
    requires a != b
    ensures IntString(a) != IntString(b)
  {
    NumberOfIntString(a);
    NumberOfIntString(b);
  }
}
