/**
 * The slice of JavaScript semantics the controllers and handlers rely on:
 * values as they arrive in a parsed request body or a schema-less stored
 * document, truthiness and `a || b`, property reads, `String(v)` (which a
 * regular expression's `test` applies to its argument), `String.prototype.trim`
 * and the UTF-16 length that `s.length` reports.
 *
 * Numbers are integers here: fractions, NaN and the infinities are not modelled.
 */
module Js {
  import opened Wrappers

  datatype Value =
    | Undefined
    | Null
    | Bool(b: bool)
    | Num(n: int)
    | Str(s: string)
    | Arr(items: seq<Value>)
    | Obj(fields: map<string, Value>)

  /** A stored or received document: its own enumerable properties. */
  type Doc = map<string, Value>

  /**
   * JavaScript's ToBoolean (ECMAScript section 7.1.2): exactly `undefined`,
   * `null`, `false`, `0` and `''` are falsy; every array and object is truthy.
   */
  predicate Truthy(v: Value): (r: bool)
    ensures !r <==> v in {Undefined, Null, Bool(false), Num(0), Str("")}
  {
    match v
    case Undefined => false
    case Null => false
    case Bool(b) => b
    case Num(n) => n != 0
    case Str(s) => s != ""
    case Arr(_) => true
    case Obj(_) => true
  }

  /** `a || b`: the left operand when it is truthy, otherwise the right one. */
  function Or(a: Value, b: Value): (r: Value)
    ensures r == a || r == b
    ensures Truthy(r) <==> Truthy(a) || Truthy(b)
  {
    if Truthy(a) then a else b
  }

  /** Reading `doc.key`: an absent property reads as `undefined`. */
  function Get(doc: Doc, key: string): (r: Value)
    ensures key !in doc ==> r == Undefined
    ensures key in doc ==> r == doc[key]
  {
    if key in doc then doc[key] else Undefined
  }

  /**
   * Reading `v.key` on any value. `null` and `undefined` throw a TypeError
   * (the message is V8's); an object yields its property; primitives and arrays
   * have no property under the keys this model reads, so they yield `undefined`.
   */
  function Property(v: Value, key: string): (r: Result<Value, string>)
    ensures r.Err? <==> v.Undefined? || v.Null?
    ensures v.Obj? ==> r == Ok(Get(v.fields, key))
    ensures !v.Obj? && !v.Undefined? && !v.Null? ==> r == Ok(Undefined)
  {
    match v
    case Undefined => Err("Cannot read properties of undefined (reading '" + key + "')")
    case Null => Err("Cannot read properties of null (reading '" + key + "')")
    case Obj(fields) => Ok(Get(fields, key))
    case _ => Ok(Undefined)
  }

  /** `typeof v === 'object'`, which also holds of `null` and of arrays. */
  predicate IsTypeofObject(v: Value) {
    v.Null? || v.Arr? || v.Obj?
  }

  /**
   * `a === b` between values taken from a parsed request body: primitives
   * compare by value; arrays and objects are distinct references, never equal.
   */
  predicate StrictEquals(a: Value, b: Value) {
    a == b && !a.Arr? && !a.Obj?
  }

  // ---------------------------------------------------------------------------
  // Decimal rendering of integers: `String(n)` and template literals `${n}`.
  // ---------------------------------------------------------------------------

  predicate IsDigit(c: char) {
    '0' <= c <= '9'
  }

  function DigitChar(d: nat): (c: char)
    requires d < 10
    ensures IsDigit(c) && (c as int) - ('0' as int) == d
  {
    ('0' as int + d) as char
  }

  function DigitValue(c: char): nat
    requires IsDigit(c)
  {
    (c as int) - ('0' as int)
  }

  /** The decimal digits of `n`, most significant first, without leading zeros. */
  function NatToString(n: nat): (s: string)
    ensures |s| >= 1
    ensures forall i :: 0 <= i < |s| ==> IsDigit(s[i])
    ensures s[0] == '0' ==> n == 0
  {
    if n < 10 then [DigitChar(n)] else NatToString(n / 10) + [DigitChar(n % 10)]
  }

  /** Reads a string of decimal digits back as a number. */
  function ParseNat(s: string): nat
    requires forall i :: 0 <= i < |s| ==> IsDigit(s[i])
  {
    if s == [] then 0 else ParseNat(s[..|s| - 1]) * 10 + DigitValue(s[|s| - 1])
  }

  /** Decimal rendering and reading are inverse: the shown number is the number. */
  lemma {:induction false} ParseNatToString(n: nat)
    ensures ParseNat(NatToString(n)) == n
  {
    var s := NatToString(n);
    if n >= 10 {
      ParseNatToString(n / 10);
      assert s[..|s| - 1] == NatToString(n / 10);
    }
  }

  /** Distinct numbers render differently. */
  lemma NatToStringInjective(m: nat, n: nat)
    requires NatToString(m) == NatToString(n)
    ensures m == n
  {
    ParseNatToString(m);
    ParseNatToString(n);
  }

  function IntToString(n: int): (s: string)
    ensures |s| >= 1
    ensures n >= 0 ==> s == NatToString(n)
    ensures n < 0 ==> s == "-" + NatToString(-n)
  {
    if n < 0 then "-" + NatToString(-n) else NatToString(n)
  }

  /** `String(v)`: the conversion `RegExp.prototype.test` applies to its argument. */
  function ToString(v: Value): (r: string)
    ensures v.Str? ==> r == v.s
    ensures v.Num? ==> ':' !in r
    ensures v.Num? && v.n >= 0 ==> (forall i :: 0 <= i < |r| ==> IsDigit(r[i])) && ParseNat(r) == v.n
    ensures v.Arr? && v.items == [] ==> r == ""
    decreases v
  {
    match v
    case Undefined => "undefined"
    case Null => "null"
    case Bool(b) => if b then "true" else "false"
    case Num(n) =>
      IntToStringHasNoColon(n);
      if n >= 0 then ParseNatToString(n); IntToString(n) else IntToString(n)
    case Str(s) => s
    case Arr(items) => JoinItems(items)
    case Obj(_) => "[object Object]"
  }

  /** `items.join(',')`, where `null` and `undefined` elements render as ''. */
  function JoinItems(items: seq<Value>): string
    decreases items
  {
    if |items| == 0 then ""
    else
      var head := if items[0].Undefined? || items[0].Null? then "" else ToString(items[0]);
      if |items| == 1 then head else head + "," + JoinItems(items[1..])
  }

  /** A number never renders with a colon in it. */
  lemma IntToStringHasNoColon(n: int)
    ensures ':' !in IntToString(n)
  {
    var d := NatToString(if n < 0 then -n else n);
    assert forall i :: 0 <= i < |d| ==> d[i] != ':';
  }

  // ---------------------------------------------------------------------------
  // String.prototype.trim
  // ---------------------------------------------------------------------------

  /** The WhiteSpace and LineTerminator code points that `trim` removes. */
  predicate IsJsSpace(c: char) {
    || c == '\t' || c == '\n' || c == '\U{000B}' || c == '\U{000C}' || c == '\r'
    || c == ' ' || c == '\U{00A0}' || c == '\U{1680}'
    || ('\U{2000}' <= c <= '\U{200A}')
    || c == '\U{2028}' || c == '\U{2029}' || c == '\U{202F}' || c == '\U{205F}'
    || c == '\U{3000}' || c == '\U{FEFF}'
  }

  predicate AllSpace(s: string) {
    forall i :: 0 <= i < |s| ==> IsJsSpace(s[i])
  }

  lemma SpacePrefix(s: string, rest: string, k: nat)
    requires 0 < k <= |s| && rest == s[1..] && IsJsSpace(s[0]) && AllSpace(rest[..k - 1])
    ensures AllSpace(s[..k])
  {
    assert forall i :: 1 <= i < k ==> s[..k][i] == rest[..k - 1][i - 1];
  }

  lemma SpaceSuffix(s: string, k: nat)
    requires k < |s| && IsJsSpace(s[|s| - 1]) && AllSpace(s[..|s| - 1][k..])
    ensures AllSpace(s[k..])
  {
    assert forall i :: 0 <= i < |s| - 1 - k ==> s[k..][i] == s[..|s| - 1][k..][i];
  }

  /** Drops leading white space: what remains is a suffix starting with a non-space. */
  function TrimStart(s: string): (r: string)
    ensures |r| <= |s| && r == s[|s| - |r|..]
    ensures AllSpace(s[..|s| - |r|])
    ensures r != [] ==> !IsJsSpace(r[0])
  {
    if s != [] && IsJsSpace(s[0]) then
      var rest := s[1..];
      var r := TrimStart(rest);
      assert r == rest[|rest| - |r|..] == s[|s| - |r|..];
      SpacePrefix(s, rest, |s| - |r|);
      r
    else s
  }

  /** Drops trailing white space: what remains is a prefix ending with a non-space. */
  function TrimEnd(s: string): (r: string)
    ensures |r| <= |s| && r == s[..|r|]
    ensures AllSpace(s[|r|..])
    ensures r != [] ==> !IsJsSpace(r[|r| - 1])
  {
    if s != [] && IsJsSpace(s[|s| - 1]) then
      var r := TrimEnd(s[..|s| - 1]);
      SpaceSuffix(s, |r|);
      r
    else s
  }

  /** `s.trim()`: the slice of `s` between its leading and trailing white space. */
  function Trim(s: string): (r: string)
    ensures exists i, j :: 0 <= i <= j <= |s| && r == s[i..j] && AllSpace(s[..i]) && AllSpace(s[j..])
    ensures r != [] ==> !IsJsSpace(r[0]) && !IsJsSpace(r[|r| - 1])
  {
    var t := TrimStart(s);
    var r := TrimEnd(t);
    TrimSlices(s, t, r);
    TrimEnds(t, r);
    r
  }

  /** A prefix of `t` keeps `t`'s first character. */
  lemma TrimEnds(t: string, r: string)
    requires |r| <= |t| && r == t[..|r|]
    requires t != [] ==> !IsJsSpace(t[0])
    requires r != [] ==> !IsJsSpace(r[|r| - 1])
    ensures r != [] ==> !IsJsSpace(r[0]) && !IsJsSpace(r[|r| - 1])
  {
    assert r != [] ==> r[0] == t[0];
  }

  /** A white-space suffix of a white-space-free prefix of a suffix: one slice of `s`. */
  lemma TrimSlices(s: string, t: string, r: string)
    requires |t| <= |s| && t == s[|s| - |t|..] && AllSpace(s[..|s| - |t|])
    requires |r| <= |t| && r == t[..|r|] && AllSpace(t[|r|..])
    ensures exists i, j :: 0 <= i <= j <= |s| && r == s[i..j] && AllSpace(s[..i]) && AllSpace(s[j..])
  {
    var i := |s| - |t|;
    var j := i + |r|;
    assert r == s[i..j];
    assert s[j..] == t[|r|..];
  }

  /** `s.trim().length === 0` exactly when `s` is all white space. */
  lemma TrimEmptyIffAllSpace(s: string)
    ensures Trim(s) == [] <==> AllSpace(s)
  {
    var t := TrimStart(s);
    if Trim(s) == [] {
      assert s == s[..|s| - |t|] + t;
      assert t == t[0..];
    }
  }

  /** Trimming a trimmed string changes nothing. */
  lemma TrimIdempotent(s: string)
    ensures Trim(Trim(s)) == Trim(s)
  {
  }

  // ---------------------------------------------------------------------------
  // `s.length`: UTF-16 code units
  // ---------------------------------------------------------------------------

  /** `s.length`: code points beyond the Basic Multilingual Plane count twice. */
  function Utf16Length(s: string): (n: nat)
    ensures |s| <= n <= 2 * |s|
  {
    if s == [] then 0
    else (if s[0] as int > 0xFFFF then 2 else 1) + Utf16Length(s[1..])
  }

  // ---------------------------------------------------------------------------
  // Array.prototype.map with a callback that may throw
  // ---------------------------------------------------------------------------

  /**
   * `items.map(f)` where `f` may throw: the first item (in order) whose callback
   * throws decides the error; otherwise every item is mapped in place.
   */
  function MapOrThrow<T>(items: seq<Value>, f: Value -> Result<T, string>): (r: Result<seq<T>, string>)
    ensures r.Ok? <==> forall i :: 0 <= i < |items| ==> f(items[i]).Ok?
    ensures r.Ok? ==> |r.value| == |items| && forall i :: 0 <= i < |items| ==> f(items[i]) == Ok(r.value[i])
    ensures r.Err? ==> exists i :: 0 <= i < |items| && f(items[i]) == Err(r.error)
                                   && forall j :: 0 <= j < i ==> f(items[j]).Ok?
  {
    if items == [] then Ok([])
    else match f(items[0])
      case Err(e) => Err(e)
      case Ok(x) =>
        match MapOrThrow(items[1..], f)
        case Err(e) =>
          ghost var i :| 0 <= i < |items[1..]| && f(items[1..][i]) == Err(e)
                         && forall j :: 0 <= j < i ==> f(items[1..][j]).Ok?;
          assert f(items[i + 1]) == Err(e);
          Err(e)
        case Ok(xs) =>
          assert forall i :: 1 <= i < |items| ==> items[i] == items[1..][i - 1];
          Ok([x] + xs)
  }

  // ---------------------------------------------------------------------------
  // Array.prototype.filter
  // ---------------------------------------------------------------------------

  /** `items.filter(keep)`: the items `keep` accepts, in their original order. */
  function Filter<T(==)>(items: seq<T>, keep: T -> bool): (r: seq<T>)
    ensures |r| <= |items|
    ensures forall i :: 0 <= i < |r| ==> r[i] in items && keep(r[i])
    ensures forall i :: 0 <= i < |items| && keep(items[i]) ==> items[i] in r
  {
    if items == [] then []
    else (if keep(items[0]) then [items[0]] else []) + Filter(items[1..], keep)
  }

  /** An item survives the filter exactly when it is in the list and accepted. */
  lemma FilterMembership<T>(items: seq<T>, keep: T -> bool, x: T)
    ensures x in Filter(items, keep) <==> x in items && keep(x)
  {
  }

  /** Filtering keeps every accepted item as often as it occurs and drops every other one. */
  lemma {:induction false} FilterCounts<T>(items: seq<T>, keep: T -> bool, x: T)
    ensures multiset(Filter(items, keep))[x] == if keep(x) then multiset(items)[x] else 0
  {
    if items != [] {
      FilterCounts(items[1..], keep, x);
      assert items == [items[0]] + items[1..];
    }
  }

  /** `r` is `s` with some elements left out and the rest kept in order. */
  predicate IsSubsequence<T(==)>(r: seq<T>, s: seq<T>)
    decreases |s|
  {
    if r == [] then true
    else if s == [] then false
    else (r[0] == s[0] && IsSubsequence(r[1..], s[1..])) || IsSubsequence(r, s[1..])
  }

  /** Filtering keeps the surviving items in their original order. */
  lemma {:induction false} FilterIsSubsequence<T>(items: seq<T>, keep: T -> bool)
    ensures IsSubsequence(Filter(items, keep), items)
  {
    if items != [] {
      var rest := Filter(items[1..], keep);
      FilterIsSubsequence(items[1..], keep);
      if keep(items[0]) {
        assert Filter(items, keep) == [items[0]] + rest;
        assert ([items[0]] + rest)[1..] == rest;
      } else {
        assert Filter(items, keep) == rest;
        if rest != [] {
          assert IsSubsequence(rest, items[1..]);
        }
      }
    }
  }

  /** Filtering distributes over concatenation. */
  lemma {:induction false} FilterAppend<T>(a: seq<T>, b: seq<T>, keep: T -> bool)
    ensures Filter(a + b, keep) == Filter(a, keep) + Filter(b, keep)
  {
    if a == [] {
      assert a + b == b;
    } else {
      var head := if keep(a[0]) then [a[0]] else [];
      assert (a + b)[0] == a[0] && (a + b)[1..] == a[1..] + b;
      FilterAppend(a[1..], b, keep);
      calc {
        Filter(a + b, keep);
        head + Filter(a[1..] + b, keep);
        head + (Filter(a[1..], keep) + Filter(b, keep));
        (head + Filter(a[1..], keep)) + Filter(b, keep);
      }
    }
  }

  /** When `keep` accepts every item, filtering changes nothing. */
  lemma {:induction false} FilterKeepsAll<T>(items: seq<T>, keep: T -> bool)
    requires forall i :: 0 <= i < |items| ==> keep(items[i])
    ensures Filter(items, keep) == items
  {
    if items != [] {
      FilterKeepsAll(items[1..], keep);
      assert [items[0]] + items[1..] == items;
    }
  }
}
