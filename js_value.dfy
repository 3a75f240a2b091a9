/**
 * The slice of JavaScript's value semantics that the memory API relies on:
 * truthiness, `typeof x === 'object'`, property reads (which throw on `null`),
 * object literals with their key order, mapshaper's `utils.extend`, template
 * string conversion (`${v}`), `Object.entries` and `Array.prototype.join`.
 */
module JsValue {
  import opened Outcomes

  /** A JavaScript value. An object is its list of own enumerable properties
      in JavaScript's enumeration order; a well-formed object has distinct keys. */
  datatype Value =
    | Undefined
    | Null
    | Bool(b: bool)
    | Num(x: real)
    | NaN
    | Str(s: string)
    | Arr(items: seq<Value>)
    | Obj(props: seq<(string, Value)>)

  type Props = seq<(string, Value)>

  /** The literal `{}`. */
  const EmptyObject: Value := Obj([])

  /** JavaScript truthiness: undefined, null, false, 0, NaN and "" are falsy. */
  predicate Truthy(v: Value) {
    match v
    case Undefined => false
    case Null => false
    case Bool(b) => b
    case Num(x) => x != 0.0
    case NaN => false
    case Str(s) => s != ""
    case Arr(_) => true
    case Obj(_) => true
  }

  /** `typeof v === 'object'`; as in JavaScript this holds of `null`. */
  predicate TypeofObject(v: Value) {
    v.Null? || v.Arr? || v.Obj?
  }

  /** A default parameter `p = {}`: only `undefined` is replaced. */
  function Default(v: Value): (r: Value)
    ensures r != Undefined
    ensures v != Undefined ==> r == v
  {
    if v.Undefined? then EmptyObject else v
  }

  // ---------------------------------------------------------------------------
  // Object properties

  function Keys(ps: Props): (ks: seq<string>)
    ensures |ks| == |ps|
    ensures forall i :: 0 <= i < |ps| ==> ks[i] == ps[i].0
  {
    if ps == [] then [] else [ps[0].0] + Keys(ps[1..])
  }

  ghost predicate DistinctKeys(ps: Props) {
    forall i, j :: 0 <= i < j < |ps| ==> ps[i].0 != ps[j].0
  }

  /** The value of property `key`, `undefined` when it is absent. */
  function Lookup(ps: Props, key: string): Value {
    if ps == [] then Undefined
    else if ps[0].0 == key then ps[0].1
    else Lookup(ps[1..], key)
  }

  /** The assignment `o[key] = val`: an existing property keeps its place in
      the enumeration order, a new one goes last (JavaScript would list a new
      array-index key such as "0" before the string keys instead). */
  function Assign(ps: Props, key: string, val: Value): Props {
    if ps == [] then [(key, val)]
    else if ps[0].0 == key then [(key, val)] + ps[1..]
    else [ps[0]] + Assign(ps[1..], key, val)
  }

  /** `v.key` on a value that is not null or undefined. */
  function Get(v: Value, key: string): Value {
    if v.Obj? then Lookup(v.props, key) else Undefined
  }

  /** `v.key` as JavaScript evaluates it: reading a property of null or
      undefined throws a TypeError. */
  function ReadProp(v: Value, key: string): (r: Result<Value>)
    ensures r.Fail? <==> v.Null? || v.Undefined?
    ensures r.Fail? ==> r.error.TypeError?
    ensures r.Ok? ==> r.value == Get(v, key)
  {
    if v.Null? then Fail(TypeError("Cannot read properties of null (reading '" + key + "')"))
    else if v.Undefined? then Fail(TypeError("Cannot read properties of undefined (reading '" + key + "')"))
    else Ok(Get(v, key))
  }

  /** The own properties that `utils.extend` copies out of a source argument. */
  function PropsOf(v: Value): Props {
    if v.Obj? then v.props else []
  }

  /** `utils.extend(dst, src)`: assigns every property of `src` to `dst`, in order. */
  function Extend(dst: Props, src: Props): Props
    decreases |src|
  {
    if src == [] then dst else Extend(Assign(dst, src[0].0, src[0].1), src[1..])
  }

  /** `utils.extend({}, base, {key: val})`: a fresh copy of `base` in which
      `key` is set to `val`; `base` itself is left as it was. */
  function ExtendWith(base: Value, key: string, val: Value): (r: Value)
    ensures r.Obj? && Get(r, key) == val
  {
    LookupAssign(Extend([], PropsOf(base)), key, val, key);
    Obj(Assign(Extend([], PropsOf(base)), key, val))
  }

  lemma {:induction false} LookupAssign(ps: Props, key: string, val: Value, other: string)
    ensures Lookup(Assign(ps, key, val), other) == if other == key then val else Lookup(ps, other)
  {
    if ps != [] && ps[0].0 != key {
      LookupAssign(ps[1..], key, val, other);
    }
  }

  lemma {:induction false} KeysAssign(ps: Props, key: string, val: Value)
    ensures Keys(Assign(ps, key, val)) == if key in Keys(ps) then Keys(ps) else Keys(ps) + [key]
  {
    if ps != [] && ps[0].0 != key {
      KeysAssign(ps[1..], key, val);
      assert Keys(ps) == [ps[0].0] + Keys(ps[1..]);
    }
  }

  lemma {:induction false} AssignKeepsDistinct(ps: Props, key: string, val: Value)
    requires DistinctKeys(ps)
    ensures DistinctKeys(Assign(ps, key, val))
  {
    KeysAssign(ps, key, val);
    var r := Assign(ps, key, val);
    forall i, j | 0 <= i < j < |r| ensures r[i].0 != r[j].0 {
      if key in Keys(ps) {
        assert Keys(r) == Keys(ps);
        assert r[i].0 == Keys(ps)[i] && r[j].0 == Keys(ps)[j];
      } else {
        assert Keys(r) == Keys(ps) + [key];
        assert r[i].0 == Keys(r)[i] && r[j].0 == Keys(r)[j];
      }
    }
  }

  /** Copying a well-formed object into `{}` reproduces it exactly: same
      properties, same values, same order. */
  lemma CopyIsIdentity(src: Props)
    requires DistinctKeys(src)
    ensures Extend([], src) == src
  {
    CopyFrom(src, 0);
    assert src[..0] == [] && src[0..] == src;
  }

  lemma {:induction false} CopyFrom(src: Props, i: nat)
    requires DistinctKeys(src) && i <= |src|
    ensures Extend(src[..i], src[i..]) == src
    decreases |src| - i
  {
    if i < |src| {
      var key := src[i].0;
      assert key !in Keys(src[..i]) by {
        forall j | 0 <= j < i ensures Keys(src[..i])[j] != key {
          assert src[..i][j] == src[j];
        }
      }
      AppendNew(src[..i], key, src[i].1);
      assert src[..i] + [(key, src[i].1)] == src[..i + 1];
      assert src[i..][1..] == src[i + 1..];
      CopyFrom(src, i + 1);
    } else {
      assert src[..i] == src;
    }
  }

  lemma {:induction false} AppendNew(ps: Props, key: string, val: Value)
    requires key !in Keys(ps)
    ensures Assign(ps, key, val) == ps + [(key, val)]
  {
    if ps != [] {
      assert Keys(ps) == [ps[0].0] + Keys(ps[1..]);
      assert ps[0].0 != key && key !in Keys(ps[1..]);
      assert Assign(ps, key, val) == [ps[0]] + Assign(ps[1..], key, val);
      AppendNew(ps[1..], key, val);
      assert [ps[0]] + (ps[1..] + [(key, val)]) == ps + [(key, val)];
    }
  }

  /** `utils.extend({}, base, {key: val})` leaves every other key of a
      well-formed object as `base` has it. */
  lemma ExtendWithKeepsOther(base: Value, key: string, val: Value, other: string)
    requires DistinctKeys(PropsOf(base)) && other != key
    ensures Get(ExtendWith(base, key, val), other) == Get(base, other)
  {
    CopyIsIdentity(PropsOf(base));
    LookupAssign(PropsOf(base), key, val, other);
  }

  /** `utils.extend({}, base, {key: val})` on a well-formed object: `key`
      reads `val`, every other property reads as in `base`, and the key order
      is `base`'s with `key` appended only if it was new. */
  lemma ExtendWithOverrides(base: Value, key: string, val: Value)
    requires DistinctKeys(PropsOf(base))
    ensures Get(ExtendWith(base, key, val), key) == val
    ensures forall k :: k != key ==> Get(ExtendWith(base, key, val), k) == Get(base, k)
    ensures Keys(ExtendWith(base, key, val).props) ==
              if key in Keys(PropsOf(base)) then Keys(PropsOf(base)) else Keys(PropsOf(base)) + [key]
    ensures DistinctKeys(ExtendWith(base, key, val).props)
  {
    CopyIsIdentity(PropsOf(base));
    KeysAssign(PropsOf(base), key, val);
    AssignKeepsDistinct(PropsOf(base), key, val);
    forall k | k != key ensures Get(ExtendWith(base, key, val), k) == Get(base, k) {
      ExtendWithKeepsOther(base, key, val, k);
    }
  }

  // ---------------------------------------------------------------------------
  // Conversions to text

  predicate IsDigit(c: char) {
    '0' <= c <= '9'
  }

  function DigitChar(d: nat): (c: char)
    requires d < 10
    ensures IsDigit(c)
  {
    (48 + d) as char
  }

  /** The decimal rendering of a non-negative integer, as `${i}` writes an index. */
  function DecimalString(n: nat): (s: string)
    ensures |s| >= 1
    ensures forall i :: 0 <= i < |s| ==> IsDigit(s[i])
    ensures s[0] == '0' ==> n == 0
  {
    if n < 10 then [DigitChar(n)] else DecimalString(n / 10) + [DigitChar(n % 10)]
  }

  /** The number a string of decimal digits denotes. */
  function DecimalValue(s: string): nat
    requires forall i :: 0 <= i < |s| ==> IsDigit(s[i])
  {
    if s == [] then 0 else 10 * DecimalValue(s[..|s| - 1]) + DigitValue(s[|s| - 1])
  }

  function DigitValue(c: char): (d: nat)
    requires IsDigit(c)
    ensures d < 10
  {
    (c as int) - 48
  }

  lemma {:induction false} DecimalRoundTrip(n: nat)
    ensures DecimalValue(DecimalString(n)) == n
  {
    var s := DecimalString(n);
    if n >= 10 {
      DecimalRoundTrip(n / 10);
      assert s[..|s| - 1] == DecimalString(n / 10);
    }
  }

  /** Distinct indices render as distinct strings. */
  lemma DecimalStringInjective(m: nat, n: nat)
    requires DecimalString(m) == DecimalString(n)
    ensures m == n
  {
    DecimalRoundTrip(m);
    DecimalRoundTrip(n);
  }

  /** `Array.prototype.join(sep)` on strings. */
  function JoinWith(sep: string, parts: seq<string>): string {
    if |parts| == 0 then ""
    else if |parts| == 1 then parts[0]
    else parts[0] + sep + JoinWith(sep, parts[1..])
  }

  /** Where the `i`-th part starts in `JoinWith(sep, parts)`. */
  function PartOffset(sep: string, parts: seq<string>, i: nat): nat
    requires i <= |parts|
  {
    if i == 0 then 0 else |parts[0]| + |sep| + PartOffset(sep, parts[1..], i - 1)
  }

  lemma SliceAfter(a: string, b: string, i: nat, j: nat)
    requires i <= j <= |b|
    ensures (a + b)[|a| + i..|a| + j] == b[i..j]
  {
  }

  /** The first part opens the joined string. */
  lemma JoinStartsWithFirst(sep: string, parts: seq<string>)
    requires |parts| > 0
    ensures |parts[0]| <= |JoinWith(sep, parts)| && JoinWith(sep, parts)[..|parts[0]|] == parts[0]
  {
    if |parts| > 1 {
      assert JoinWith(sep, parts) == parts[0] + (sep + JoinWith(sep, parts[1..]));
    }
  }

  /** The joined string holds every part, in order, at its offset. */
  lemma {:induction false} JoinPlacesPart(sep: string, parts: seq<string>, i: nat)
    requires i < |parts|
    ensures PartOffset(sep, parts, i) + |parts[i]| <= |JoinWith(sep, parts)|
    ensures JoinWith(sep, parts)[PartOffset(sep, parts, i)..PartOffset(sep, parts, i) + |parts[i]|] == parts[i]
  {
    if i == 0 {
      JoinStartsWithFirst(sep, parts);
    } else {
      var head := parts[0] + sep;
      var rest := JoinWith(sep, parts[1..]);
      assert JoinWith(sep, parts) == head + rest;
      JoinPlacesPart(sep, parts[1..], i - 1);
      var a := PartOffset(sep, parts[1..], i - 1);
      assert PartOffset(sep, parts, i) == |head| + a;
      assert parts[1..][i - 1] == parts[i];
      SliceAfter(head, rest, a, a + |parts[i]|);
    }
  }

  /** Consecutive parts are separated by exactly `sep`. */
  lemma {:induction false} JoinPlacesSeparator(sep: string, parts: seq<string>, i: nat)
    requires i + 1 < |parts|
    ensures PartOffset(sep, parts, i + 1) == PartOffset(sep, parts, i) + |parts[i]| + |sep|
    ensures PartOffset(sep, parts, i + 1) <= |JoinWith(sep, parts)|
    ensures JoinWith(sep, parts)[PartOffset(sep, parts, i) + |parts[i]|..PartOffset(sep, parts, i + 1)] == sep
  {
    var head := parts[0] + sep;
    var rest := JoinWith(sep, parts[1..]);
    assert JoinWith(sep, parts) == head + rest;
    if i > 0 {
      JoinPlacesSeparator(sep, parts[1..], i - 1);
      var a := PartOffset(sep, parts[1..], i - 1) + |parts[i]|;
      SliceAfter(head, rest, a, a + |sep|);
    } else {
      JoinPlacesPart(sep, parts[1..], 0);
    }
  }
  /** The joined string ends with the last part: nothing follows it. */
  lemma {:induction false} JoinEnds(sep: string, parts: seq<string>)
    requires |parts| > 0
    ensures |JoinWith(sep, parts)| == PartOffset(sep, parts, |parts| - 1) + |parts[|parts| - 1]|
  {
    if |parts| > 1 {
      JoinEnds(sep, parts[1..]);
      assert parts[1..][|parts[1..]| - 1] == parts[|parts| - 1];
    }
  }


  /** The text `${v}` produces. Number formatting is JavaScript's
      Number.prototype.toString, passed in as `numberText`. */
  function TemplateText(v: Value, numberText: real -> string): string
    decreases v
  {
    match v
    case Undefined => "undefined"
    case Null => "null"
    case Bool(b) => if b then "true" else "false"
    case Num(x) => numberText(x)
    case NaN => "NaN"
    case Str(s) => s
    case Arr(items) =>
      JoinWith(",", seq(|items|, i requires 0 <= i < |items| =>
        if items[i].Undefined? || items[i].Null? then "" else TemplateText(items[i], numberText)))
    case Obj(_) => "[object Object]"
  }

  /** `Object.entries(v)` for the objects and arrays that reach it. */
  function Entries(v: Value): (es: seq<(string, Value)>)
    ensures v.Obj? ==> es == v.props
    ensures v.Arr? ==> |es| == |v.items|
    ensures v.Arr? ==> forall i :: 0 <= i < |es| ==> es[i] == (DecimalString(i), v.items[i])
  {
    match v
    case Obj(ps) => ps
    case Arr(items) => seq(|items|, i requires 0 <= i < |items| => (DecimalString(i), items[i]))
    case _ => []
  }
}
