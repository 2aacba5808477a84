/** The slice of JavaScript value semantics that the client's expressions
    rely on: decoded JSON values, truthiness (`!x`, `x || y`), property
    reads (`x.k`, `x?.k`), object spread (`{...x}`) and string conversion
    (`new Error(x).message`). */
module JsValues {
  import opened Wrappers
  import opened Decimal

  /** A value decoded from a JSON body. A number is kept as the exact decimal
      `mantissa * 10^exponent`; the client never computes with it. */
  datatype JVal =
    | JNull
    | JBool(b: bool)
    | JNum(mantissa: int, exponent: int)
    | JStr(s: string)
    | JArr(items: seq<JVal>)
    | JObj(fields: map<string, JVal>)

  /** The outcome of evaluating an expression that may throw: a value, or an
      exception carrying its message. */
  datatype Completion<+T> = Normal(value: T) | Throw(message: string)

  /** JavaScript's ToBoolean: null, false, 0 and "" are falsy; every array
      and object, empty or not, is truthy. */
  predicate Truthy(v: JVal) {
    match v
    case JNull => false
    case JBool(b) => b
    case JNum(m, _) => m != 0
    case JStr(s) => s != ""
    case JArr(_) => true
    case JObj(_) => true
  }

  /** Truthiness of a value that may be `undefined` (None), which is falsy. */
  predicate TruthyOpt(x: Option<JVal>) {
    x.Some? && Truthy(x.value)
  }

  /** `x || y` where `x` may be undefined: `x` when truthy, otherwise `y`. */
  function Or(x: Option<JVal>, y: JVal): (r: JVal)
    ensures TruthyOpt(x) ==> r == x.value
    ensures !TruthyOpt(x) ==> r == y
  {
    if TruthyOpt(x) then x.value else y
  }

  function Get(m: map<string, JVal>, key: string): (r: Option<JVal>)
    ensures r.Some? <==> key in m
    ensures r.Some? ==> r.value == m[key]
  {
    if key in m then Some(m[key]) else None
  }

  /** The named property `v.key` of a value that is not null: an object's own
      field, the `length` of an array or string, and `undefined` otherwise.
      The client reads only named properties, so index properties are not
      listed here. */
  function PropOf(v: JVal, key: string): Option<JVal>
    requires !v.JNull?
  {
    match v
    case JObj(m) => Get(m, key)
    case JArr(xs) => if key == "length" then Some(JNum(|xs|, 0)) else None
    case JStr(s) => if key == "length" then Some(JNum(|s|, 0)) else None
    case _ => None
  }

  /** The text of the TypeError a property read on null raises (as worded by
      the V8 engine). */
  function NullReadMessage(key: string): string {
    "Cannot read properties of null (reading '" + key + "')"
  }

  /** `v.key`: reading a property of null throws. */
  function Access(v: JVal, key: string): (r: Completion<Option<JVal>>)
    ensures r.Throw? <==> v.JNull?
    ensures r.Throw? ==> r.message == NullReadMessage(key)
    ensures r.Normal? ==> r.value == PropOf(v, key)
  {
    if v.JNull? then Throw(NullReadMessage(key)) else Normal(PropOf(v, key))
  }

  /** `v?.key`: undefined when `v` is undefined or null, never throws. */
  function OptAccess(v: Option<JVal>, key: string): (r: Option<JVal>)
    ensures (v.None? || v == Some(JNull)) ==> r.None?
    ensures v.Some? && !v.value.JNull? ==> r == PropOf(v.value, key)
  {
    if v.None? || v.value.JNull? then None else PropOf(v.value, key)
  }

  /** The own enumerable properties `{...v}` copies: an object's fields, an
      array's elements or a string's characters under their decimal indices,
      and nothing for undefined, null, booleans and numbers. */
  function Spread(v: Option<JVal>): (r: map<string, JVal>)
    ensures v.Some? && v.value.JObj? ==> r == v.value.fields
    ensures (v.None? || v.value.JNull? || v.value.JBool? || v.value.JNum?) ==> r == map[]
    ensures v.Some? && v.value.JArr? ==>
              r.Keys == IndexKeys(|v.value.items|)
    ensures v.Some? && v.value.JArr? ==>
              forall i :: 0 <= i < |v.value.items| ==> NatToString(i) in r && r[NatToString(i)] == v.value.items[i]
    ensures v.Some? && v.value.JStr? ==>
              r.Keys == IndexKeys(|v.value.s|)
    ensures v.Some? && v.value.JStr? ==>
              forall i :: 0 <= i < |v.value.s| ==> NatToString(i) in r && r[NatToString(i)] == JStr([v.value.s[i]])
    ensures forall k :: k in r && !(v.Some? && v.value.JObj?) ==> AllDigits(k)
  {
    match v
    case None => map[]
    case Some(JObj(m)) => m
    case Some(JArr(xs)) => Indexed(xs)
    case Some(JStr(s)) => Indexed(seq(|s|, i requires 0 <= i < |s| => JStr([s[i]])))
    case Some(_) => map[]
  }

  /** The decimal numerals of the indices below `n`. */
  function IndexKeys(n: nat): set<string> {
    set i | 0 <= i < n :: NatToString(i)
  }

  /** The elements of a sequence under their decimal indices. */
  function Indexed<T>(xs: seq<T>): (r: map<string, T>)
    ensures r.Keys == IndexKeys(|xs|)
    ensures forall i :: 0 <= i < |xs| ==> NatToString(i) in r && r[NatToString(i)] == xs[i]
  {
    NatToStringInjective();
    var r := map i | 0 <= i < |xs| :: NatToString(i) := xs[i];
    var indices := IndexKeys(|xs|);
    assert r.Keys == indices by {
      forall k | k in r ensures k in indices {
        var i :| 0 <= i < |xs| && NatToString(i) == k;
      }
      forall k | k in indices ensures k in r {
        var i :| 0 <= i < |xs| && NatToString(i) == k;
      }
    }
    r
  }

  /** A property named by something other than a numeral ("title", "xaxis")
      reads the same through `v?.key` as through the spread copy `{...v}`. */
  lemma SpreadReadsNamedProperty(v: Option<JVal>, key: string)
    requires !AllDigits(key) && key != "length"
    ensures Get(Spread(v), key) == OptAccess(v, key)
  {
  }

  /** Number::toString for an exact decimal, following the ECMAScript
      algorithm: plain digits up to 21 integer digits, a leading "0." down to
      1e-6, exponential notation beyond. */
  function NumberToString(m: int, e: int): string {
    if m == 0 then "0"
    else if m < 0 then "-" + PositiveToString(-m, e)
    else PositiveToString(m, e)
  }

  /** `m * 10^e` with the trailing zeros of `m` moved into the exponent. */
  function StripZeros(m: nat, e: int): (r: (nat, int))
    requires m > 0
    ensures r.0 > 0 && r.0 % 10 != 0
    ensures r.1 >= e && m == r.0 * Pow10(r.1 - e)
    decreases m
  {
    if m % 10 == 0 then StripZeros(m / 10, e + 1) else (m, e)
  }

  function PositiveToString(m: nat, e: int): string
    requires m > 0
  {
    var (d, scale) := StripZeros(m, e);
    var digits := NatToString(d);
    var k := |digits|;
    var n := k + scale;
    if k <= n <= 21 then digits + Zeros(n - k)
    else if 0 < n <= 21 then digits[..n] + "." + digits[n..]
    else if -6 < n <= 0 then "0." + Zeros(-n) + digits
    else
      var sign := if n - 1 >= 0 then "+" else "-";
      var power := NatToString(if n - 1 >= 0 then n - 1 else 1 - n);
      if k == 1 then digits + "e" + sign + power
      else digits[..1] + "." + digits[1..] + "e" + sign + power
  }

  /** The text of the TypeError ToString raises on an object whose own
      `toString` property is not a function (as worded by the V8 engine). */
  const NoPrimitiveMessage := "Cannot convert object to primitive value"

  /** Whether ToString succeeds on a JSON value. It fails on an object with
      an own `toString` key: that property shadows `Object.prototype.toString`
      and is not callable, and the inherited `valueOf` returns the object
      itself, so no primitive is found. An array fails when an element does. */
  predicate Printable(v: JVal)
    decreases v
  {
    match v
    case JObj(m) => "toString" !in m
    case JArr(xs) => forall i :: 0 <= i < |xs| ==> Printable(xs[i])
    case _ => true
  }

  /** JavaScript's ToString of a JSON value: arrays join their elements with
      "," (null elements as ""), an object prints as "[object Object]" unless
      its own `toString` key makes the conversion throw. */
  function JsString(v: JVal): (r: Completion<string>)
    ensures r.Throw? <==> !Printable(v)
    ensures r.Throw? ==> r.message == NoPrimitiveMessage
    decreases v
  {
    match v
    case JNull => Normal("null")
    case JBool(b) => Normal(if b then "true" else "false")
    case JNum(m, e) => Normal(NumberToString(m, e))
    case JStr(s) => Normal(s)
    case JObj(m) => if "toString" in m then Throw(NoPrimitiveMessage) else Normal("[object Object]")
    case JArr(xs) => JoinElements(xs)
  }

  /** `Array.prototype.join(",")` over JSON elements. */
  function JoinElements(xs: seq<JVal>): (r: Completion<string>)
    ensures r.Throw? <==> exists i :: 0 <= i < |xs| && !Printable(xs[i])
    ensures r.Throw? ==> r.message == NoPrimitiveMessage
    decreases xs
  {
    if |xs| == 0 then Normal("")
    else
      var init := xs[..|xs| - 1];
      var last := if xs[|xs| - 1].JNull? then Normal("") else JsString(xs[|xs| - 1]);
      assert forall i :: 0 <= i < |init| ==> init[i] == xs[i];
      if |xs| == 1 then last
      else
        match JoinElements(init)
        case Throw(msg) => Throw(msg)
        case Normal(head) =>
          match last
          case Throw(msg) => Throw(msg)
          case Normal(tail) => Normal(head + "," + tail)
  }

  /** What an array element contributes to the joined text: "" for null,
      otherwise its string. */
  function ElementText(x: JVal): string
    requires Printable(x)
  {
    if x.JNull? then "" else JsString(x).value
  }

  /** The texts of the elements, in order. */
  function ElementTexts(xs: seq<JVal>): (r: seq<string>)
    requires forall i :: 0 <= i < |xs| ==> Printable(xs[i])
    ensures |r| == |xs|
    ensures forall i :: 0 <= i < |xs| ==> r[i] == ElementText(xs[i])
  {
    if |xs| == 0 then [] else ElementTexts(xs[..|xs| - 1]) + [ElementText(xs[|xs| - 1])]
  }

  /** Strings separated by ",", read from the front. */
  function JoinComma(ss: seq<string>): string {
    if |ss| == 0 then ""
    else if |ss| == 1 then ss[0]
    else ss[0] + "," + JoinComma(ss[1..])
  }

  lemma {:induction false} JoinCommaSnoc(ss: seq<string>, t: string)
    requires |ss| >= 1
    ensures JoinComma(ss + [t]) == JoinComma(ss) + "," + t
    decreases |ss|
  {
    if |ss| == 1 {
      assert ss + [t] == [ss[0], t];
      assert [ss[0], t][1..] == [t];
    } else {
      assert (ss + [t])[1..] == ss[1..] + [t];
      JoinCommaSnoc(ss[1..], t);
      assert JoinComma(ss + [t]) == ss[0] + "," + (JoinComma(ss[1..]) + "," + t);
      assert ss[0] + "," + (JoinComma(ss[1..]) + "," + t) == (ss[0] + "," + JoinComma(ss[1..])) + "," + t;
    }
  }

  /** An array whose elements all convert prints as their texts joined by
      ",", a null element contributing the empty string. */
  lemma {:induction false} ArrayToStringLaw(xs: seq<JVal>)
    requires forall i :: 0 <= i < |xs| ==> Printable(xs[i])
    ensures JsString(JArr(xs)) == Normal(JoinComma(ElementTexts(xs)))
    decreases |xs|
  {
    if |xs| > 1 {
      var init := xs[..|xs| - 1];
      assert forall i :: 0 <= i < |init| ==> init[i] == xs[i];
      ArrayToStringLaw(init);
      assert ElementTexts(xs) == ElementTexts(init) + [ElementText(xs[|xs| - 1])];
      JoinCommaSnoc(ElementTexts(init), ElementText(xs[|xs| - 1]));
    }
  }

  /** Strings convert to themselves; an object converts to "[object Object]"
      unless it has an own `toString` key, which makes the conversion throw. */
  lemma JsStringOfScalars(s: string, m: map<string, JVal>, b: bool)
    ensures JsString(JStr(s)) == Normal(s)
    ensures "toString" !in m ==> JsString(JObj(m)) == Normal("[object Object]")
    ensures "toString" in m ==> JsString(JObj(m)) == Throw(NoPrimitiveMessage)
    ensures JsString(JNull) == Normal("null")
    ensures JsString(JBool(b)) == Normal(if b then "true" else "false")
  {
  }

  /** An integer with at most 21 digits prints as its plain decimal numeral,
      with a leading "-" when negative. */
  lemma IntegerToString(m: nat)
    requires 0 < m < Pow10(21)
    ensures NumberToString(m, 0) == NatToString(m)
    ensures NumberToString(-(m as int), 0) == "-" + NatToString(m)
  {
    var (d, scale) := StripZeros(m, 0);
    NatToStringShift(d, scale);
    NatToStringLength(m, 21);
    assert PositiveToString(m, 0) == NatToString(d) + Zeros(scale);
  }

  /** The thresholds of Number::toString, for a single significant digit
      `d`: 21 integer digits print plainly and 10^21 switches to exponent
      notation; 1e-6 is the last value printed with a leading "0.". */
  lemma NumberToStringThresholds(d: nat)
    requires 0 < d < 10
    ensures NumberToString(d, 20) == [DigitChar(d)] + Zeros(20)
    ensures NumberToString(d, 21) == [DigitChar(d)] + "e+21"
    ensures NumberToString(d, -6) == "0." + Zeros(5) + [DigitChar(d)]
    ensures NumberToString(d, -7) == [DigitChar(d)] + "e-7"
  {
    assert NatToString(21) == "21" && NatToString(7) == "7";
    assert StripZeros(d, 20) == (d, 20) && StripZeros(d, 21) == (d, 21);
    assert StripZeros(d, -6) == (d, -6) && StripZeros(d, -7) == (d, -7);
  }

  /** `String(["a", null, 2])` is "a,,2". */
  lemma ArrayToStringExample()
    ensures JsString(JArr([JStr("a"), JNull, JNum(2, 0)])) == Normal("a,,2")
  {
    var xs := [JStr("a"), JNull, JNum(2, 0)];
    TwoToString();
    assert xs[..2] == [JStr("a"), JNull] && xs[..2][..1] == [JStr("a")];
    assert JoinElements([JStr("a")]) == Normal("a");
    assert JoinElements(xs[..2]) == Normal("a" + "," + "");
    assert JoinElements(xs).value == JoinElements(xs[..2]).value + "," + JsString(xs[2]).value;
    assert "a" + "," + "" == "a," && "a," + "," + "2" == "a,,2";
  }

  lemma TwoToString()
    ensures JsString(JNum(2, 0)) == Normal("2")
  {
    assert Pow10(1) == 10;
    IntegerToString(2);
    assert NatToString(2) == "2";
  }

  /** `String(["a", {toString: 1}])` throws: one element that cannot be
      converted aborts the whole join. */
  lemma ArrayWithToStringKeyThrows()
    ensures JsString(JArr([JStr("a"), JObj(map["toString" := JNum(1, 0)])])) == Throw(NoPrimitiveMessage)
  {
    var ys := [JStr("a"), JObj(map["toString" := JNum(1, 0)])];
    assert !Printable(ys[1]);
  }
}
