/** The optional-value datatype used throughout the model. */
module Wrappers {
  datatype Option<+T> = None | Some(value: T)
}

/** A JavaScript value as it arrives from `JSON.parse` (plus `undefined`), and the
    coercions the core applies to it: truthiness (`x || d`), `Number(x)` and
    template-literal stringification (`${x}`), both of which can throw.

    Numbers are integral: `Num` is an integer or NaN. Objects keep their members in
    insertion order, as JavaScript does. */
module JsValues {
  import opened Wrappers
  import opened Text

  datatype Num = Fin(value: int) | NaN

  datatype JsValue =
    | Undefined
    | Null
    | Bool(b: bool)
    | Number(n: Num)
    | Str(s: string)
    | Arr(items: seq<JsValue>)
    | Obj(members: seq<(string, JsValue)>)

  /** JavaScript truthiness: `false`, `0`, `NaN`, `""`, `null` and `undefined` are falsy. */
  predicate Truthy(v: JsValue) {
    match v
    case Undefined => false
    case Null => false
    case Bool(b) => b
    case Number(n) => n != Fin(0) && n != NaN
    case Str(s) => s != ""
    case Arr(_) => true
    case Obj(_) => true
  }

  predicate IsNullish(v: JsValue) {
    v == Null || v == Undefined
  }

  /** `a || b`. */
  function Or(a: JsValue, b: JsValue): (r: JsValue)
    ensures Truthy(a) ==> r == a
    ensures !Truthy(a) ==> r == b
  {
    if Truthy(a) then a else b
  }

  /** The value of the first member called `name`, or `undefined`. */
  function Lookup(members: seq<(string, JsValue)>, name: string): (r: JsValue)
    ensures r != Undefined ==> exists i :: 0 <= i < |members| && members[i] == (name, r)
    decreases |members|
  {
    if |members| == 0 then Undefined
    else if members[0].0 == name then members[0].1
    else Lookup(members[1..], name)
  }

  /** `v.name` on a value that is neither `null` nor `undefined`: an object's member, and
      `undefined` for every other value (the core only reads names that no primitive
      prototype defines). */
  function Get(v: JsValue, name: string): JsValue
    requires !IsNullish(v)
  {
    if v.Obj? then Lookup(v.members, name) else Undefined
  }

  /** A member is found at the first position that carries its name. */
  lemma {:induction false} LookupAt(members: seq<(string, JsValue)>, name: string, i: nat)
    requires i < |members| && members[i].0 == name
    requires forall j :: 0 <= j < i ==> members[j].0 != name
    ensures Lookup(members, name) == members[i].1
    decreases i
  {
    if i > 0 {
      LookupAt(members[1..], name, i - 1);
    }
  }

  /** A name no member carries reads as `undefined`. */
  lemma {:induction false} LookupAbsent(members: seq<(string, JsValue)>, name: string)
    requires forall j :: 0 <= j < |members| ==> members[j].0 != name
    ensures Lookup(members, name) == Undefined
    decreases |members|
  {
    if |members| > 0 {
      LookupAbsent(members[1..], name);
    }
  }

  /** `{...o, name: x}` on an object: an existing member keeps its place and takes the new
      value, otherwise the member is appended. */
  function SetMember(members: seq<(string, JsValue)>, name: string, x: JsValue): (r: seq<(string, JsValue)>)
    ensures Lookup(r, name) == x
    ensures forall n :: n != name ==> Lookup(r, n) == Lookup(members, n)
    decreases |members|
  {
    if |members| == 0 then [(name, x)]
    else if members[0].0 == name then [(name, x)] + members[1..]
    else [members[0]] + SetMember(members[1..], name, x)
  }

  // ---------------------------------------------------------------- Number(x)

  /** JavaScript's StrWhiteSpaceChar: white space and line terminators. */
  predicate IsJsWhiteSpace(c: char) {
    c == '\t' || c == '\n' || c == '\U{B}' || c == '\U{C}' || c == '\r' || c == ' '
    || c == '\U{A0}' || c == '\U{1680}' || ('\U{2000}' <= c <= '\U{200A}')
    || c == '\U{2028}' || c == '\U{2029}' || c == '\U{202F}' || c == '\U{205F}'
    || c == '\U{3000}' || c == '\U{FEFF}'
  }

  function TrimStart(s: string): (r: string)
    ensures |r| <= |s|
    ensures |r| > 0 ==> !IsJsWhiteSpace(r[0])
    decreases |s|
  {
    if |s| > 0 && IsJsWhiteSpace(s[0]) then TrimStart(s[1..]) else s
  }

  function TrimEnd(s: string): (r: string)
    ensures |r| <= |s|
    ensures |r| > 0 ==> !IsJsWhiteSpace(r[|r| - 1])
    decreases |s|
  {
    if |s| > 0 && IsJsWhiteSpace(s[|s| - 1]) then TrimEnd(s[..|s| - 1]) else s
  }

  /** `Number(s)` on a string: surrounding white space is ignored, the empty string is 0,
      an optionally signed run of decimal digits is its value, anything else is NaN. */
  function StringToNumber(s: string): Num {
    var t := TrimEnd(TrimStart(s));
    if t == "" then Fin(0)
    else if |t| > 1 && (t[0] == '-' || t[0] == '+') && AllDigits(t[1..]) then
      Fin(if t[0] == '-' then -(DigitsValue(t[1..]) as int) else DigitsValue(t[1..]))
    else if AllDigits(t) then Fin(DigitsValue(t))
    else NaN
  }

  /** `String(n)`. */
  function NumToString(n: Num): string {
    if n.NaN? then "NaN" else IntToString(n.value)
  }

  /** An own member called `toString`. A parsed value never holds a function, so such a
      member is not callable and hides the inherited `Object.prototype.toString`. */
  predicate HasOwnToString(members: seq<(string, JsValue)>) {
    exists i :: 0 <= i < |members| && members[i].0 == "toString"
  }

  /** Converting `v` to a primitive (`${v}`, `Number(v)`) throws a TypeError: `v` is an
      object with its own `toString` (its `valueOf` yields no primitive either), or an array
      one of whose non-nullish elements, at any depth, is such an object. */
  predicate ConversionThrows(v: JsValue)
    decreases v
  {
    match v
    case Obj(ms) => HasOwnToString(ms)
    case Arr(items) =>
      exists i :: 0 <= i < |items| && !IsNullish(items[i]) && ConversionThrows(items[i])
    case _ => false
  }

  /** `${v}` / `String(v)`, or `None` for the TypeError it throws. Arrays are joined with
      commas, `null` and `undefined` elements giving the empty string; a plain object is
      "[object Object]". */
  function ToStr(v: JsValue): (r: Option<string>)
    ensures r.None? <==> ConversionThrows(v)
    decreases v
  {
    match v
    case Undefined => Some("undefined")
    case Null => Some("null")
    case Bool(b) => Some(if b then "true" else "false")
    case Number(n) => Some(NumToString(n))
    case Str(s) => Some(s)
    case Arr(items) =>
      if exists i :: 0 <= i < |items| && !IsNullish(items[i]) && ToStr(items[i]).None? then None
      else
        Some(JoinWith(seq(|items|, i requires 0 <= i < |items| =>
          if IsNullish(items[i]) then "" else ToStr(items[i]).value), ","))
    case Obj(ms) => if HasOwnToString(ms) then None else Some("[object Object]")
  }

  function JoinWith(parts: seq<string>, sep: string): string
    decreases |parts|
  {
    if |parts| == 0 then ""
    else if |parts| == 1 then parts[0]
    else parts[0] + sep + JoinWith(parts[1..], sep)
  }

  /** `Number(v)`, or `None` for the TypeError it throws. An array converts through its
      joined text; a plain object is NaN. */
  function ToNumber(v: JsValue): (r: Option<Num>)
    ensures r.None? <==> ConversionThrows(v)
  {
    match v
    case Undefined => Some(NaN)
    case Null => Some(Fin(0))
    case Bool(b) => Some(Fin(if b then 1 else 0))
    case Number(n) => Some(n)
    case Str(s) => Some(StringToNumber(s))
    case Arr(_) => if ToStr(v).None? then None else Some(StringToNumber(ToStr(v).value))
    case Obj(ms) => if HasOwnToString(ms) then None else Some(NaN)
  }

  /** `Number(v) || 0`: the coerced number, with 0 in place of NaN (and of 0 itself), or
      `None` when `Number(v)` throws. */
  function NumberOrZero(v: JsValue): (r: Option<int>)
    ensures r.None? <==> ConversionThrows(v)
    ensures r.Some? ==> (r.value == 0 <==> !Truthy(Number(ToNumber(v).value)))
    ensures r.Some? && r.value != 0 ==> ToNumber(v) == Some(Fin(r.value))
  {
    match ToNumber(v)
    case None => None
    case Some(Fin(n)) => Some(n)
    case Some(NaN) => Some(0)
  }

  // ---------------------------------------------------------------- lemmas

  lemma DigitsAreNotWhiteSpace(s: string)
    requires forall i :: 0 <= i < |s| ==> IsDigit(s[i]) || s[i] == '-'
    ensures TrimStart(s) == s && TrimEnd(s) == s
  {
    if |s| > 0 {
      assert !IsJsWhiteSpace(s[0]);
      assert !IsJsWhiteSpace(s[|s| - 1]);
    }
  }

  /** Printing an integer and reading it back with `Number` gives the integer. */
  lemma StringToNumberOfIntToString(n: int)
    ensures StringToNumber(IntToString(n)) == Fin(n)
  {
    var s := IntToString(n);
    DigitsAreNotWhiteSpace(s);
    if n < 0 {
      DigitsValueOfNatToString(-n);
      assert s[1..] == NatToString(-n);
    } else {
      DigitsValueOfNatToString(n);
    }
  }

  /** `Number(String(x))` is `x` for every integral number, so a numeric field survives a
      round trip through text. */
  lemma ToNumberOfNumberText(n: int)
    ensures ToNumber(Str(NumToString(Fin(n)))) == Some(Fin(n))
  {
    StringToNumberOfIntToString(n);
  }

  /** `Number([n])` is `n` for an integral number `n`: a one-element array converts
      through the text of its element. */
  lemma ToNumberOfSingletonArray(n: int)
    ensures ToNumber(Arr([Number(Fin(n))])) == Some(Fin(n))
  {
    var v := Arr([Number(Fin(n))]);
    assert ToStr(v) == Some(IntToString(n));
    StringToNumberOfIntToString(n);
  }
}
