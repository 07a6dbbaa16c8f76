/** `JSON.stringify` over `JsValue`, and the fact the event-stream framing relies on: the
    text of any value holds no line break, because string contents are escaped. */
module JsonText {
  import opened Text
  import opened JsValues

  function HexDigit(d: int): char
    requires 0 <= d < 16
  {
    if d < 10 then ('0' as int + d) as char else ('a' as int + d - 10) as char
  }

  /** One character of a JSON string literal: quote, backslash and control characters are
      escaped; `\b \f \n \r \t` use their short forms, other controls `\u00XX`. */
  function EscapeChar(c: char): string {
    if c == '"' then "\\\""
    else if c == '\\' then "\\\\"
    else if c == '\U{8}' then "\\b"
    else if c == '\U{C}' then "\\f"
    else if c == '\n' then "\\n"
    else if c == '\r' then "\\r"
    else if c == '\t' then "\\t"
    else if (c as int) < 0x20 then "\\u00" + [HexDigit(c as int / 16), HexDigit(c as int % 16)]
    else [c]
  }

  function Escape(s: string): string
    decreases |s|
  {
    if |s| == 0 then "" else EscapeChar(s[0]) + Escape(s[1..])
  }

  function Quote(s: string): string {
    "\"" + Escape(s) + "\""
  }

  /** The members `JSON.stringify` writes: those whose value is not `undefined`. */
  function Defined(ms: seq<(string, JsValue)>): (r: seq<(string, JsValue)>)
    ensures forall i :: 0 <= i < |r| ==> r[i] in ms && r[i].1 != Undefined
    decreases |ms|
  {
    if |ms| == 0 then []
    else if ms[0].1 == Undefined then Defined(ms[1..])
    else [ms[0]] + Defined(ms[1..])
  }

  /** `JSON.stringify(v)`. NaN is written `null`; an `undefined` array element is written
      `null` and an `undefined` member is left out. (A top-level `undefined` has no JSON
      text; the core never stringifies one.) */
  function Stringify(v: JsValue): string
    decreases v
  {
    match v
    case Undefined => "null"
    case Null => "null"
    case Bool(b) => if b then "true" else "false"
    case Number(n) => if n.NaN? then "null" else IntToString(n.value)
    case Str(s) => Quote(s)
    case Arr(items) =>
      "[" + JoinWith(seq(|items|, i requires 0 <= i < |items| => Stringify(items[i])), ",") + "]"
    case Obj(ms) =>
      var kept := Defined(ms);
      "{" + JoinWith(seq(|kept|, i requires 0 <= i < |kept| =>
        Quote(kept[i].0) + ":" + Stringify(kept[i].1)), ",") + "}"
  }

  // ---------------------------------------------------------------- no line breaks

  predicate NoLineBreak(s: string) {
    forall i :: 0 <= i < |s| ==> s[i] != '\n' && s[i] != '\r'
  }

  lemma {:induction false} EscapeNoLineBreak(s: string)
    ensures NoLineBreak(Escape(s))
    decreases |s|
  {
    if |s| > 0 {
      EscapeNoLineBreak(s[1..]);
    }
  }

  lemma {:induction false} JoinNoLineBreak(parts: seq<string>, sep: string)
    requires forall i :: 0 <= i < |parts| ==> NoLineBreak(parts[i])
    requires NoLineBreak(sep)
    ensures NoLineBreak(JoinWith(parts, sep))
    decreases |parts|
  {
    if |parts| > 1 {
      JoinNoLineBreak(parts[1..], sep);
    }
  }

  lemma IntTextNoLineBreak(n: int)
    ensures NoLineBreak(IntToString(n))
  {
  }

  /** The JSON text of every value is a single line: no `\n` and no `\r` in it. */
  lemma {:induction false} StringifyNoLineBreak(v: JsValue)
    ensures NoLineBreak(Stringify(v))
    decreases v
  {
    match v
    case Undefined =>
    case Null =>
    case Bool(b) =>
    case Number(n) =>
      if n.Fin? { IntTextNoLineBreak(n.value); }
    case Str(s) =>
      EscapeNoLineBreak(s);
    case Arr(items) =>
      var parts := seq(|items|, i requires 0 <= i < |items| => Stringify(items[i]));
      forall i | 0 <= i < |parts| ensures NoLineBreak(parts[i]) {
        StringifyNoLineBreak(items[i]);
      }
      JoinNoLineBreak(parts, ",");
    case Obj(ms) =>
      var kept := Defined(ms);
      var parts := seq(|kept|, i requires 0 <= i < |kept| =>
        Quote(kept[i].0) + ":" + Stringify(kept[i].1));
      forall i | 0 <= i < |parts| ensures NoLineBreak(parts[i]) {
        EscapeNoLineBreak(kept[i].0);
        StringifyNoLineBreak(kept[i].1);
      }
      JoinNoLineBreak(parts, ",");
  }

  // ---------------------------------------------------------------- the value a reader gets back

  /** A value JSON can carry as it is: no `undefined` and no NaN anywhere in it. */
  predicate IsJsonData(v: JsValue)
    decreases v
  {
    match v
    case Undefined => false
    case Number(n) => n.Fin?
    case Arr(items) => forall i :: 0 <= i < |items| ==> IsJsonData(items[i])
    case Obj(ms) => forall i :: 0 <= i < |ms| ==> IsJsonData(ms[i].1)
    case _ => true
  }

  /** The value `JSON.parse(JSON.stringify(v))` gives back: NaN and an `undefined` array
      element come back as `null`, an `undefined` member is gone, and everything else is as
      it was (members keep their order; names are taken to be distinct). */
  function Reparse(v: JsValue): (r: JsValue)
    decreases v
  {
    match v
    case Undefined => Null
    case Number(n) => if n.NaN? then Null else v
    case Arr(items) => Arr(seq(|items|, i requires 0 <= i < |items| => Reparse(items[i])))
    case Obj(ms) =>
      var kept := Defined(ms);
      Obj(seq(|kept|, i requires 0 <= i < |kept| => (kept[i].0, Reparse(kept[i].1))))
    case _ => v
  }

  /** What comes back can be carried as it is. */
  lemma {:induction false} ReparseIsJsonData(v: JsValue)
    ensures IsJsonData(Reparse(v))
    decreases v
  {
    match v
    case Arr(items) =>
      forall i | 0 <= i < |items| ensures IsJsonData(Reparse(items[i])) {
        ReparseIsJsonData(items[i]);
      }
    case Obj(ms) =>
      var kept := Defined(ms);
      forall i | 0 <= i < |kept| ensures IsJsonData(Reparse(kept[i].1)) {
        ReparseIsJsonData(kept[i].1);
      }
    case _ =>
  }

  /** A value JSON can carry comes back unchanged. */
  lemma {:induction false} ReparseOfJsonData(v: JsValue)
    requires IsJsonData(v)
    ensures Reparse(v) == v
    decreases v
  {
    match v
    case Arr(items) =>
      forall i | 0 <= i < |items| ensures Reparse(items[i]) == items[i] {
        ReparseOfJsonData(items[i]);
      }
      assert Reparse(v).items == items;
    case Obj(ms) =>
      DefinedOfJsonData(ms);
      forall i | 0 <= i < |ms| ensures Reparse(ms[i].1) == ms[i].1 {
        ReparseOfJsonData(ms[i].1);
      }
      assert Reparse(v).members == ms;
    case _ =>
  }

  lemma {:induction false} DefinedOfJsonData(ms: seq<(string, JsValue)>)
    requires forall i :: 0 <= i < |ms| ==> IsJsonData(ms[i].1)
    ensures Defined(ms) == ms
    decreases |ms|
  {
    if |ms| > 0 {
      assert ms[0].1 != Undefined;
      DefinedOfJsonData(ms[1..]);
      assert [ms[0]] + ms[1..] == ms;
    }
  }

  /** What comes back has the same JSON text as what was sent. */
  lemma {:induction false} StringifyOfReparse(v: JsValue)
    ensures Stringify(Reparse(v)) == Stringify(v)
    decreases v, 1
  {
    match v
    case Arr(items) =>
      var back := Reparse(v).items;
      forall i | 0 <= i < |items| ensures Stringify(back[i]) == Stringify(items[i]) {
        StringifyOfReparse(items[i]);
      }
      assert seq(|back|, i requires 0 <= i < |back| => Stringify(back[i]))
        == seq(|items|, i requires 0 <= i < |items| => Stringify(items[i]));
    case Obj(_) =>
      StringifyOfReparsedObject(v);
    case _ =>
  }

  lemma {:induction false} StringifyOfReparsedObject(v: JsValue)
    requires v.Obj?
    ensures Stringify(Reparse(v)) == Stringify(v)
    decreases v, 0
  {
    var kept := Defined(v.members);
    var back := Reparse(v).members;
    ReparseIsJsonData(v);
    DefinedOfJsonData(back);
    forall i | 0 <= i < |kept|
      ensures Quote(back[i].0) + ":" + Stringify(back[i].1)
        == Quote(kept[i].0) + ":" + Stringify(kept[i].1)
    {
      StringifyOfReparse(kept[i].1);
    }
    assert seq(|back|, i requires 0 <= i < |back| => Quote(back[i].0) + ":" + Stringify(back[i].1))
      == seq(|kept|, i requires 0 <= i < |kept| => Quote(kept[i].0) + ":" + Stringify(kept[i].1));
  }

  /** Reading a member back: a defined member comes back as its own value after the trip. */
  lemma {:induction false} LookupReparsed(ms: seq<(string, JsValue)>, name: string)
    requires Lookup(ms, name) != Undefined
    ensures Lookup(Reparse(Obj(ms)).members, name) == Reparse(Lookup(ms, name))
    decreases |ms|
  {
    var back := Reparse(Obj(ms)).members;
    var rest := Reparse(Obj(ms[1..])).members;
    if ms[0].1 == Undefined {
      ReparsedMembersSkip(ms);
      LookupReparsed(ms[1..], name);
    } else if ms[0].0 != name {
      ReparsedMembersKeep(ms);
      assert back[1..] == rest;
      LookupReparsed(ms[1..], name);
    } else {
      ReparsedMembersKeep(ms);
    }
  }

  /** An `undefined` first member does not come back. */
  lemma ReparsedMembersSkip(ms: seq<(string, JsValue)>)
    requires |ms| > 0 && ms[0].1 == Undefined
    ensures Reparse(Obj(ms)).members == Reparse(Obj(ms[1..])).members
  {
    assert Defined(ms) == Defined(ms[1..]);
  }

  /** Any other first member comes back reparsed, in front of the rest. */
  lemma ReparsedMembersKeep(ms: seq<(string, JsValue)>)
    requires |ms| > 0 && ms[0].1 != Undefined
    ensures Reparse(Obj(ms)).members == [(ms[0].0, Reparse(ms[0].1))] + Reparse(Obj(ms[1..])).members
  {
    var kept := Defined(ms);
    var tail := Defined(ms[1..]);
    assert kept == [ms[0]] + tail;
    var back := Reparse(Obj(ms)).members;
    var front := [(ms[0].0, Reparse(ms[0].1))] + Reparse(Obj(ms[1..])).members;
    forall i | 0 <= i < |back| ensures back[i] == front[i] {
      if i > 0 {
        assert kept[i] == tail[i - 1];
      }
    }
  }
}
