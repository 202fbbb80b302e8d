/**
 * The JavaScript values that trigger data, workflow configuration and request
 * bodies are made of, with the coercions the services rely on: truthiness,
 * `Number(...)`, `String(...)`, loose (`==`) and strict (`===`) equality and
 * optional-chaining property lookup.
 *
 * Numbers are integers. Arrays and objects always come from separately parsed
 * JSON documents, so two of them are never the same reference: both equalities
 * treat them as unequal to everything.
 */
module Json {
  import opened Wrappers

  datatype Json =
    | Undefined
    | Null
    | Bool(b: bool)
    | Num(n: int)
    | Str(s: string)
    | Arr(items: seq<Json>)
    | Obj(fields: map<string, Json>)

  /** JavaScript truthiness: `undefined`, `null`, `false`, `0` and `""` are falsy. */
  predicate Truthy(v: Json)
    ensures IsNullish(v) ==> !Truthy(v)
    ensures IsObject(v) ==> Truthy(v)
  {
    match v
    case Undefined => false
    case Null => false
    case Bool(b) => b
    case Num(n) => n != 0
    case Str(s) => s != ""
    case _ => true
  }

  predicate IsNullish(v: Json) {
    v.Undefined? || v.Null?
  }

  /** The message of the `TypeError` that reading property `key` of `null` or `undefined` raises. */
  function ReadError(v: Json, key: string): (m: string)
    requires IsNullish(v)
    ensures "Cannot read properties of " <= m
  {
    "Cannot read properties of " + (if v.Null? then "null" else "undefined") + " (reading '" + key + "')"
  }

  // ---------------------------------------------------------------- numbers

  predicate IsDigit(c: char) {
    '0' <= c <= '9'
  }

  function DigitChar(d: nat): (c: char)
    requires d < 10
    ensures IsDigit(c) && (c as int) - ('0' as int) == d
  {
    (('0' as int) + d) as char
  }

  function DigitValue(c: char): (d: nat)
    requires IsDigit(c)
    ensures d < 10 && DigitChar(d) == c
  {
    (c as int) - ('0' as int)
  }

  /** The decimal numeral of `n`, without leading zeros. */
  function NatToString(n: nat): (s: string)
    ensures |s| >= 1 && forall i :: 0 <= i < |s| ==> IsDigit(s[i])
    ensures |s| > 1 ==> s[0] != '0'
    ensures (s[0] == '0') == (n == 0)
    decreases n
  {
    if n < 10 then [DigitChar(n)] else NatToString(n / 10) + [DigitChar(n % 10)]
  }

  /** `String(n)` for an integer `n`. */
  function IntToString(n: int): (s: string)
    ensures |s| >= 1
  {
    if n < 0 then "-" + NatToString(-n) else NatToString(n)
  }

  /** The value of a non-empty run of decimal digits. */
  function DigitsValue(s: string): (n: nat)
    requires forall i :: 0 <= i < |s| ==> IsDigit(s[i])
    decreases |s|
  {
    if s == [] then 0 else DigitsValue(s[..|s| - 1]) * 10 + DigitValue(s[|s| - 1])
  }

  lemma {:induction false} DigitsValueOfNatToString(n: nat)
    ensures DigitsValue(NatToString(n)) == n
    decreases n
  {
    var s := NatToString(n);
    if n >= 10 {
      DigitsValueOfNatToString(n / 10);
      assert s[..|s| - 1] == NatToString(n / 10);
    }
  }

  predicate AllDigits(s: string) {
    forall i :: 0 <= i < |s| ==> IsDigit(s[i])
  }

  /**
   * `Number(s)` for a string: surrounding white space is ignored, the empty
   * string is 0, an optional sign followed by decimal digits is that integer,
   * and anything else is NaN (`None`).
   */
  function StringToNumber(s: string): (r: Option<int>)
    ensures Trim(s) == "" ==> r == Some(0)
  {
    var t := Trim(s);
    if t == "" then Some(0)
    else if AllDigits(t) then Some(DigitsValue(t))
    else if |t| > 1 && (t[0] == '-' || t[0] == '+') && AllDigits(t[1..]) then
      var magnitude: int := DigitsValue(t[1..]);
      Some(if t[0] == '-' then -magnitude else magnitude)
    else None
  }

  /** `Number(String(n)) == n`: the numeral of an integer reads back as that integer. */
  lemma StringToNumberOfIntToString(n: int)
    ensures StringToNumber(IntToString(n)) == Some(n)
  {
    if n < 0 {
      var d := NatToString(-n);
      var s := "-" + d;
      assert s[0] == '-' && s[|s| - 1] == d[|d| - 1];
      TrimNoOp(s);
      assert s[1..] == d;
      assert !AllDigits(s) by { assert !IsDigit(s[0]); }
      DigitsValueOfNatToString(-n);
    } else {
      var d := NatToString(n);
      TrimOfDigits(d);
      DigitsValueOfNatToString(n);
    }
  }

  /** `Number(v)`; `None` stands for NaN. Arrays and objects are treated as NaN. */
  function ToNumber(v: Json): (r: Option<int>)
    ensures v.Num? ==> r == Some(v.n)
    ensures v.Undefined? ==> r.None?
  {
    match v
    case Undefined => None
    case Null => Some(0)
    case Bool(b) => Some(if b then 1 else 0)
    case Num(n) => Some(n)
    case Str(s) => StringToNumber(s)
    case _ => None
  }

  // ---------------------------------------------------------------- strings

  /** The characters `String.prototype.trim` removes: white space and line terminators. */
  predicate IsJsWhitespace(c: char) {
    c == '\t' || c == '\n' || c == '\U{B}' || c == '\U{C}' || c == '\r' || c == ' '
    || c == '\U{A0}' || c == '\U{1680}' || ('\U{2000}' <= c <= '\U{200A}')
    || c == '\U{2028}' || c == '\U{2029}' || c == '\U{202F}' || c == '\U{205F}'
    || c == '\U{3000}' || c == '\U{FEFF}'
  }

  function TrimStart(s: string): (r: string)
    ensures |r| <= |s| && r == s[|s| - |r|..]
    ensures r != [] ==> !IsJsWhitespace(r[0])
    ensures forall k :: 0 <= k < |s| - |r| ==> IsJsWhitespace(s[k])
    decreases |s|
  {
    if s != [] && IsJsWhitespace(s[0]) then TrimStart(s[1..]) else s
  }

  function TrimEnd(s: string): (r: string)
    ensures |r| <= |s| && r == s[..|r|]
    ensures r != [] ==> !IsJsWhitespace(r[|r| - 1])
    ensures forall k :: |r| <= k < |s| ==> IsJsWhitespace(s[k])
    decreases |s|
  {
    if s != [] && IsJsWhitespace(s[|s| - 1]) then TrimEnd(s[..|s| - 1]) else s
  }

  /** `s.trim()`: the middle of the string, with white space only on either side of it. */
  function Trim(s: string): (r: string)
    ensures |r| <= |s|
    ensures r != [] ==> !IsJsWhitespace(r[0]) && !IsJsWhitespace(r[|r| - 1])
    ensures exists i, j :: (0 <= i <= j <= |s| && r == s[i..j]
                            && (forall k :: 0 <= k < i ==> IsJsWhitespace(s[k]))
                            && (forall k :: j <= k < |s| ==> IsJsWhitespace(s[k])))
  {
    var t := TrimStart(s);
    var r := TrimEnd(t);
    var i := |s| - |t|;
    assert r == s[i..i + |r|];
    assert forall k :: i + |r| <= k < |s| ==> s[k] == t[k - i];
    r
  }

  lemma TrimNoOp(s: string)
    requires s != [] ==> !IsJsWhitespace(s[0]) && !IsJsWhitespace(s[|s| - 1])
    ensures Trim(s) == s
  {
    assert TrimStart(s) == s;
    assert TrimEnd(s) == s;
  }

  lemma TrimOfDigits(s: string)
    requires s != [] && AllDigits(s)
    ensures Trim(s) == s
  {
    assert IsDigit(s[0]) && IsDigit(s[|s| - 1]);
    TrimNoOp(s);
  }

  /** `s.includes(needle)`. */
  predicate Includes(s: string, needle: string) {
    exists i :: 0 <= i <= |s| && needle <= s[i..]
  }

  /** `items.join(",")` over strings already converted. */
  function JoinComma(parts: seq<string>): (r: string)
    ensures |r| >= |parts| - 1
  {
    if parts == [] then "" else if |parts| == 1 then parts[0] else parts[0] + "," + JoinComma(parts[1..])
  }

  /**
   * `String(v)`. An array joins its elements with commas, writing `null` and
   * `undefined` elements as the empty string; an object is `[object Object]`.
   */
  function ToStr(v: Json): (r: string)
    ensures v.Str? ==> r == v.s
    ensures v.Num? ==> r == IntToString(v.n)
    decreases v
  {
    match v
    case Undefined => "undefined"
    case Null => "null"
    case Bool(b) => if b then "true" else "false"
    case Num(n) => IntToString(n)
    case Str(s) => s
    case Arr(items) =>
      JoinComma(seq(|items|, i requires 0 <= i < |items| =>
        if IsNullish(items[i]) then "" else ToStr(items[i])))
    case Obj(_) => "[object Object]"
  }

  // ------------------------------------------------------------- equalities

  predicate IsObject(v: Json) {
    v.Arr? || v.Obj?
  }

  /** Loose equality between two primitives that are neither `null` nor `undefined`. */
  predicate PrimitiveLooseEquals(a: Json, b: Json)
    requires !IsObject(a) && !IsObject(b) && !IsNullish(a) && !IsNullish(b)
  {
    var a' := if a.Bool? then Num(if a.b then 1 else 0) else a;
    var b' := if b.Bool? then Num(if b.b then 1 else 0) else b;
    match (a', b')
    case (Num(x), Num(y)) => x == y
    case (Str(x), Str(y)) => x == y
    case (Num(x), Str(y)) => StringToNumber(y) == Some(x)
    case (Str(x), Num(y)) => StringToNumber(x) == Some(y)
    case _ => false
  }

  /**
   * `a == b`: `null` and `undefined` equal each other and nothing else; two
   * arrays or objects are distinct references; an array or object compared
   * with a primitive is first converted with `String(...)`; a boolean is
   * compared as 0 or 1; a number and a string compare numerically.
   */
  predicate LooseEquals(a: Json, b: Json)
    ensures IsNullish(a) ==> (LooseEquals(a, b) <==> IsNullish(b))
    ensures IsObject(a) && IsObject(b) ==> !LooseEquals(a, b)
    ensures a.Num? && b.Str? ==> (LooseEquals(a, b) <==> StringToNumber(b.s) == Some(a.n))
    ensures a.Bool? && b.Num? ==> (LooseEquals(a, b) <==> b.n == if a.b then 1 else 0)
  {
    if IsNullish(a) || IsNullish(b) then IsNullish(a) && IsNullish(b)
    else if IsObject(a) && IsObject(b) then false
    else
      var a' := if IsObject(a) then Str(ToStr(a)) else a;
      var b' := if IsObject(b) then Str(ToStr(b)) else b;
      PrimitiveLooseEquals(a', b')
  }

  /** `a === b` (as used by `Array.prototype.includes`): same type and value; objects are distinct references. */
  predicate StrictEquals(a: Json, b: Json)
    ensures StrictEquals(a, b) ==> a == b
    ensures IsObject(a) ==> !StrictEquals(a, b)
    ensures a.Num? && b.Str? ==> !StrictEquals(a, b)
  {
    !IsObject(a) && !IsObject(b) && a == b
  }

  lemma LooseEqualsSymmetric(a: Json, b: Json)
    ensures LooseEquals(a, b) == LooseEquals(b, a)
  {
  }

  lemma StrictImpliesLoose(a: Json, b: Json)
    ensures StrictEquals(a, b) ==> LooseEquals(a, b)
  {
    if StrictEquals(a, b) && a.Str? {
      assert PrimitiveLooseEquals(a, b);
    }
  }

  // ---------------------------------------------------------------- lookups

  /** The array index a property key denotes: a canonical decimal numeral. */
  function CanonicalIndex(key: string): (r: Option<nat>)
    ensures r.Some? ==> NatToString(r.value) == key
  {
    if key != [] && AllDigits(key) && (|key| == 1 || key[0] != '0') then
      CanonicalDigits(key);
      Some(DigitsValue(key))
    else None
  }

  lemma {:induction false} CanonicalDigits(key: string)
    requires key != [] && AllDigits(key) && (|key| == 1 || key[0] != '0')
    ensures NatToString(DigitsValue(key)) == key
    decreases |key|
  {
    var init := key[..|key| - 1];
    var last := DigitValue(key[|key| - 1]);
    if |key| > 1 {
      assert init[0] == key[0];
      CanonicalDigits(init);
      var n := DigitsValue(key);
      assert n == DigitsValue(init) * 10 + last;
      assert DigitsValue(init) > 0 by {
        assert NatToString(DigitsValue(init))[0] == init[0] != '0';
      }
      assert n / 10 == DigitsValue(init) && n % 10 == last;
      assert key == init + [key[|key| - 1]];
    }
  }

  /**
   * `v?.[key]`: `undefined` when `v` is `null` or `undefined`, the member of an
   * object, the element or `length` of an array or a string; a number or a
   * boolean has no own properties.
   */
  function GetField(v: Json, key: string): (r: Json)
    ensures IsNullish(v) ==> r == Undefined
    ensures v.Obj? ==> r == (if key in v.fields then v.fields[key] else Undefined)
  {
    match v
    case Obj(m) => if key in m then m[key] else Undefined
    case Arr(items) =>
      if key == "length" then Num(|items|)
      else (match CanonicalIndex(key)
            case Some(i) => if i < |items| then items[i] else Undefined
            case None => Undefined)
    case Str(s) =>
      if key == "length" then Num(|s|)
      else (match CanonicalIndex(key)
            case Some(i) => if i < |s| then Str([s[i]]) else Undefined
            case None => Undefined)
    case _ => Undefined
  }

  /** `s.split(sep)` for a one-character separator. */
  function Split(s: string, sep: char): (parts: seq<string>)
    ensures |parts| >= 1
    decreases |s|
  {
    if s == [] then [""]
    else if s[0] == sep then [""] + Split(s[1..], sep)
    else
      var rest := Split(s[1..], sep);
      [[s[0]] + rest[0]] + rest[1..]
  }

  /** `parts.join(sep)`. */
  function Join(parts: seq<string>, sep: char): string
  {
    if parts == [] then "" else if |parts| == 1 then parts[0] else parts[0] + [sep] + Join(parts[1..], sep)
  }

  /** Joining the pieces of a split gives the string back, and no piece holds the separator. */
  lemma {:induction false} SplitJoin(s: string, sep: char)
    ensures Join(Split(s, sep), sep) == s
    ensures forall i :: 0 <= i < |Split(s, sep)| ==> sep !in Split(s, sep)[i]
    decreases |s|
  {
    if s != [] {
      SplitJoin(s[1..], sep);
      var rest := Split(s[1..], sep);
      if s[0] == sep {
        assert Split(s, sep) == [""] + rest;
        assert ([""] + rest)[1..] == rest;
        assert s == [s[0]] + s[1..];
      } else {
        var parts := Split(s, sep);
        assert parts == [[s[0]] + rest[0]] + rest[1..];
        assert parts[1..] == rest[1..];
        if |rest| == 1 {
          assert s == [s[0]] + rest[0];
        } else {
          assert Join(rest, sep) == rest[0] + [sep] + Join(rest[1..], sep);
          assert s == [s[0]] + s[1..];
        }
        forall i | 0 <= i < |parts| ensures sep !in parts[i] {
          if i > 0 { assert parts[i] == rest[i]; }
        }
      }
    }
  }

  /** A string without the separator splits into itself. */
  lemma {:induction false} SplitWithoutSeparator(s: string, sep: char)
    requires sep !in s
    ensures Split(s, sep) == [s]
    decreases |s|
  {
    if s != [] {
      SplitWithoutSeparator(s[1..], sep);
      assert s == [s[0]] + s[1..];
    }
  }

  /** Splitting `a + sep + b`, where `a` has no separator, yields `a` followed by the pieces of `b`. */
  lemma {:induction false} SplitAtFirstSeparator(a: string, sep: char, b: string)
    requires sep !in a
    ensures Split(a + [sep] + b, sep) == [a] + Split(b, sep)
    decreases |a|
  {
    var s := a + [sep] + b;
    if a == [] {
      assert s[0] == sep && s[1..] == b;
    } else {
      assert s[0] == a[0] && s[1..] == a[1..] + [sep] + b;
      SplitAtFirstSeparator(a[1..], sep, b);
      assert [a[0]] + a[1..] == a;
    }
  }

  /** The left fold `keys.reduce((current, key) => current?.[key], v)`. */
  function GetPath(v: Json, keys: seq<string>): (r: Json)
    ensures keys == [] ==> r == v
    ensures |keys| == 1 ==> r == GetField(v, keys[0])
    ensures IsNullish(v) && keys != [] ==> r == Undefined
    decreases |keys|
  {
    if keys == [] then v else GetPath(GetField(v, keys[0]), keys[1..])
  }

  /** `getNestedValue(obj, path)`: the dotted path looked up key by key. */
  function GetNestedValue(obj: Json, path: string): (r: Json)
    ensures IsNullish(obj) ==> r == Undefined
    ensures '.' !in path ==> r == GetField(obj, path)
  {
    if '.' !in path then
      SplitWithoutSeparator(path, '.');
      GetPath(obj, Split(path, '.'))
    else GetPath(obj, Split(path, '.'))
  }

  /** Looking up a path in two parts is looking up the second part in the result of the first. */
  lemma {:induction false} GetPathAppend(v: Json, a: seq<string>, b: seq<string>)
    ensures GetPath(v, a + b) == GetPath(GetPath(v, a), b)
    decreases |a|
  {
    if a == [] {
      assert a + b == b;
    } else {
      assert (a + b)[0] == a[0];
      assert (a + b)[1..] == a[1..] + b;
      GetPathAppend(GetField(v, a[0]), a[1..], b);
    }
  }

  /** Once a lookup reaches `undefined`, every further key gives `undefined` (and nothing throws). */
  lemma {:induction false} GetPathOfUndefined(keys: seq<string>)
    ensures GetPath(Undefined, keys) == Undefined
    decreases |keys|
  {
    if keys != [] {
      GetPathOfUndefined(keys[1..]);
    }
  }

  /** A missing intermediate key makes the whole lookup `undefined`. */
  lemma MissingIntermediateKey(v: Json, keys: seq<string>, i: nat)
    requires i <= |keys| && GetPath(v, keys[..i]) == Undefined
    ensures GetPath(v, keys) == Undefined
  {
    assert keys == keys[..i] + keys[i..];
    GetPathAppend(v, keys[..i], keys[i..]);
    GetPathOfUndefined(keys[i..]);
  }
}
