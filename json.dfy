/** JSON values as the server sees them after `express.json()` or `JSON.parse`,
    and the few JavaScript operations the request logic applies to them:
    truthiness, property access, strict equality (`===`) and the implicit
    conversions to string and to number. Numbers are integers in this model. */
module Json {
  import opened Wrappers
  import Decimal

  datatype Value =
    | Null
    | Bool(b: bool)
    | Num(n: int)
    | Str(s: string)
    | Arr(elems: seq<Value>)
    | Obj(fields: map<string, Value>)

  /** A JSON object: a request body or a stored record. */
  type Object = map<string, Value>

  /** JavaScript's white space and line terminators: the characters of the
      regular-expression class `\s`, and what `String.prototype.trim` strips. */
  predicate IsWhitespace(c: char)
    ensures IsWhitespace(c) ==> !Decimal.IsDigit(c) && c != '-' && c != '+' && c != '@' && c != '.'
  {
    c == '\t' || c == '\n' || c == '\U{000B}' || c == '\U{000C}' || c == '\r' || c == ' ' ||
    c == '\U{00A0}' || c == '\U{1680}' || ('\U{2000}' <= c <= '\U{200A}') ||
    c == '\U{2028}' || c == '\U{2029}' || c == '\U{202F}' || c == '\U{205F}' ||
    c == '\U{3000}' || c == '\U{FEFF}'
  }

  /** `!!v` for a JSON value: the falsy values are exactly `null`, `false`,
      `0` and the empty string. */
  predicate Truthy(v: Value)
    ensures !Truthy(v) <==> v == Null || v == Bool(false) || v == Num(0) || v == Str("")
  {
    match v
    case Null => false
    case Bool(b) => b
    case Num(n) => n != 0
    case Str(s) => s != ""
    case Arr(_) => true
    case Obj(_) => true
  }

  /** `!!x` where `x` may be `undefined`. */
  predicate TruthyField(x: Option<Value>) {
    x.Some? && Truthy(x.value)
  }

  /** `o.k` on an object: `undefined` when the key is absent. */
  function Get(o: Object, k: string): (x: Option<Value>)
    ensures x.Some? <==> k in o
    ensures x.Some? ==> x.value == o[k]
  {
    if k in o then Some(o[k]) else None
  }

  /** `v.k` on a value that is not `null` (on `null` JavaScript throws a
      TypeError, which callers handle themselves). Strings, numbers, booleans
      and arrays have no property named by the keys used here. */
  function Prop(v: Value, k: string): (x: Option<Value>)
    ensures x.Some? <==> v.Obj? && k in v.fields
    ensures x.Some? ==> x.value == v.fields[k]
  {
    match v
    case Obj(f) => Get(f, k)
    case _ => None
  }

  predicate IsPrimitive(v: Value) {
    v.Null? || v.Bool? || v.Num? || v.Str?
  }

  /** `a === b`. Two `undefined`s are identical; primitives compare by value;
      arrays and objects compare by reference, and two values obtained from
      separate parses (a stored record and a request body) or from distinct
      positions of one parse are never the same reference. */
  predicate StrictEquals(a: Option<Value>, b: Option<Value>)
    ensures StrictEquals(a, b) ==> a == b
    ensures a.Some? && IsPrimitive(a.value) ==> (StrictEquals(a, b) <==> a == b)
    ensures a.Some? && !IsPrimitive(a.value) ==> !StrictEquals(a, b)
  {
    match (a, b)
    case (None, None) => true
    case (Some(x), Some(y)) => IsPrimitive(x) && x == y
    case _ => false
  }

  /** `parts.join(sep)`. */
  function Join(parts: seq<string>, sep: string): string {
    if |parts| == 0 then ""
    else if |parts| == 1 then parts[0]
    else Join(parts[..|parts| - 1], sep) + sep + parts[|parts| - 1]
  }

  /** The outcome of a conversion to a primitive: the converted value, or the
      TypeError "Cannot convert object to primitive value". */
  datatype Coerced<+T> = Done(value: T) | TypeError

  /** An object with an own `toString` key. JSON cannot make that key
      callable, so a conversion to a primitive skips it, then finds that
      `Object.prototype.valueOf` returns the object itself, and throws. */
  predicate OwnToString(v: Value) {
    v.Obj? && "toString" in v.fields
  }

  /** `parts.join(sep)` over element conversions performed left to right: the
      first one that throws makes the join throw. */
  function JoinAll(parts: seq<Coerced<string>>, sep: string): (r: Coerced<string>)
    ensures r.TypeError? <==> exists i | 0 <= i < |parts| :: parts[i].TypeError?
    ensures r.Done? ==> r.value == Join(seq(|parts|, i requires 0 <= i < |parts| => parts[i].value), sep)
  {
    if |parts| == 0 then Done("")
    else if |parts| == 1 then parts[0]
    else
      match JoinAll(parts[..|parts| - 1], sep)
      case TypeError => TypeError
      case Done(head) =>
        match parts[|parts| - 1]
        case TypeError => TypeError
        case Done(last) =>
          assert seq(|parts| - 1, i requires 0 <= i < |parts| - 1 => parts[..|parts| - 1][i].value)
              == seq(|parts|, i requires 0 <= i < |parts| => parts[i].value)[..|parts| - 1];
          Done(head + sep + last)
  }

  /** `String(v)`: the conversion `RegExp.prototype.test` applies, and which
      `Array.prototype.join` applies to each element (`null` elements become
      the empty string). Arrays convert through `join(",")`; objects through
      `Object.prototype.toString`, unless they have an own `toString` key. */
  function ToStr(v: Value): (r: Coerced<string>)
    ensures IsPrimitive(v) ==> r.Done?
    ensures v.Str? ==> r == Done(v.s)
    ensures v.Obj? ==> (r.TypeError? <==> OwnToString(v))
    ensures v.Arr? ==> (r.TypeError? <==>
      exists i | 0 <= i < |v.elems| :: !v.elems[i].Null? && ToStr(v.elems[i]).TypeError?)
    decreases v
  {
    match v
    case Null => Done("null")
    case Bool(b) => Done(if b then "true" else "false")
    case Num(n) => Done(Decimal.FromInt(n))
    case Str(s) => Done(s)
    case Arr(e) =>
      var parts := seq(|e|, i requires 0 <= i < |e| => if e[i].Null? then Done("") else ToStr(e[i]));
      var r := JoinAll(parts, ",");
      assert r.TypeError? ==> exists i | 0 <= i < |e| :: !e[i].Null? && ToStr(e[i]).TypeError? by {
        if r.TypeError? {
          var i :| 0 <= i < |parts| && parts[i].TypeError?;
        }
      }
      assert (exists i | 0 <= i < |e| :: !e[i].Null? && ToStr(e[i]).TypeError?) ==> r.TypeError? by {
        if exists i | 0 <= i < |e| :: !e[i].Null? && ToStr(e[i]).TypeError? {
          var i :| 0 <= i < |e| && !e[i].Null? && ToStr(e[i]).TypeError?;
          assert parts[i].TypeError?;
        }
      }
      r
    case Obj(f) => if "toString" in f then TypeError else Done("[object Object]")
  }

  function TrimStart(s: string): (t: string)
    ensures |t| <= |s| && t == s[|s| - |t|..]
    ensures t != [] ==> !IsWhitespace(t[0])
  {
    if s != [] && IsWhitespace(s[0]) then TrimStart(s[1..]) else s
  }

  function TrimEnd(s: string): (t: string)
    ensures |t| <= |s| && t == s[..|t|]
    ensures t != [] ==> !IsWhitespace(t[|t| - 1])
  {
    if s != [] && IsWhitespace(s[|s| - 1]) then TrimEnd(s[..|s| - 1]) else s
  }

  /** `Number(s)` for the integer literals the model supports; `None` is NaN.
      White space around the literal is ignored and blank text is 0. */
  function StringToNumber(s: string): (r: Option<int>)
    ensures var t := TrimEnd(TrimStart(s));
      (r.Some? <==> t == "" || Decimal.AllDigits(t) ||
                    (|t| > 1 && (t[0] == '-' || t[0] == '+') && Decimal.AllDigits(t[1..]))) &&
      (r.Some? && r.value < 0 ==> t != "" && t[0] == '-')
  {
    var t := TrimEnd(TrimStart(s));
    if t == "" then Some(0)
    else if |t| > 1 && t[0] == '-' && Decimal.AllDigits(t[1..]) then Some(0 - Decimal.Value(t[1..]) as int)
    else if |t| > 1 && t[0] == '+' && Decimal.AllDigits(t[1..]) then Some(Decimal.Value(t[1..]))
    else if Decimal.AllDigits(t) then Some(Decimal.Value(t))
    else None
  }

  /** Trimming leaves text that starts and ends with a non-white-space character as it is. */
  lemma TrimKeeps(s: string)
    requires s != [] && !IsWhitespace(s[0]) && !IsWhitespace(s[|s| - 1])
    ensures TrimEnd(TrimStart(s)) == s
  {
    assert TrimStart(s) == s;
  }

  /** A digit string reads as its value. */
  lemma DigitsNumber(d: string)
    requires d != [] && Decimal.AllDigits(d)
    ensures StringToNumber(d) == Some(Decimal.Value(d))
  {
    assert Decimal.IsDigit(d[0]) && Decimal.IsDigit(d[|d| - 1]);
    TrimKeeps(d);
  }

  /** A digit string after a minus sign reads as the negated value. */
  lemma NegatedDigitsNumber(d: string)
    requires d != [] && Decimal.AllDigits(d)
    ensures StringToNumber("-" + d) == Some(0 - Decimal.Value(d))
  {
    var m := "-" + d;
    assert Decimal.IsDigit(d[|d| - 1]);
    assert m[0] == '-' && m[|m| - 1] == d[|d| - 1];
    TrimKeeps(m);
    var t := TrimEnd(TrimStart(m));
    assert t[1..] == d;
    assert |t| > 1 && t[0] == '-' && Decimal.AllDigits(t[1..]);
  }

  /** `Number(String(n)) === n`: a printed integer reads back as itself. */
  lemma NumberOfString(n: int)
    ensures StringToNumber(Decimal.FromInt(n)) == Some(n)
  {
    if n >= 0 {
      DigitsNumber(Decimal.FromNat(n));
      Decimal.ValueOfFromNat(n);
    } else {
      NegatedDigitsNumber(Decimal.FromNat(-n));
      Decimal.ValueOfFromNat(-n);
    }
  }

  /** The number a relational comparison such as `v <= 0` converts `v` to;
      `None` is NaN, which compares false with everything. Arrays and objects
      convert through their string form, and throw where it throws. */
  function ToNumber(v: Value): (r: Coerced<Option<int>>)
    ensures r.TypeError? <==> ToStr(v).TypeError?
    ensures v.Num? ==> r == Done(Some(v.n))
    ensures v.Str? ==> r == Done(StringToNumber(v.s))
  {
    match v
    case Null => Done(Some(0))
    case Bool(b) => Done(Some(if b then 1 else 0))
    case Num(n) => Done(Some(n))
    case Str(s) => Done(StringToNumber(s))
    case _ =>
      match ToStr(v)
      case TypeError => TypeError
      case Done(s) => Done(StringToNumber(s))
  }
}
