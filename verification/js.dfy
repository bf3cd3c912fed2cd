/**
  The part of ECMAScript's built-in behaviour the front end relies on:
  values as JSON.parse produces them, truthiness and `||`, property access,
  String.prototype.toLowerCase / includes / trim and Array.prototype.slice.
*/
module Js {
  import opened Basics

  // ---------------------------------------------------------------------------
  // Values
  // ---------------------------------------------------------------------------

  /** A JavaScript value as JSON.parse can produce it, plus `undefined`.
      Numbers are integers here (see the README). */
  datatype Value =
    | Undefined
    | Null
    | Bool(b: bool)
    | Num(n: int)
    | Str(s: string)
    | Arr(items: seq<Value>)
    | Obj(fields: seq<(string, Value)>)

  /** The outcome of evaluating an expression that may throw. */
  datatype Completion<+T> = Returned(value: T) | Threw

  /** ToBoolean: undefined, null, false, 0 and "" are the falsy values. */
  predicate Truthy(v: Value) {
    match v
    case Undefined => false
    case Null => false
    case Bool(b) => b
    case Num(n) => n != 0
    case Str(s) => s != ""
    case Arr(_) => true
    case Obj(_) => true
  }

  /** `a || b`: the left operand when it is truthy, the right one otherwise. */
  function Or(a: Value, b: Value): (r: Value)
    ensures Truthy(a) ==> r == a
    ensures !Truthy(a) ==> r == b
    ensures Truthy(r) <==> Truthy(a) || Truthy(b)
  {
    if Truthy(a) then a else b
  }

  /** Index of the LAST pair naming `key`, or -1 when no pair names it. */
  function LastKeyIndex(fields: seq<(string, Value)>, key: string): (j: int)
    ensures -1 <= j < |fields|
    ensures 0 <= j ==> fields[j].0 == key
    ensures forall k :: j < k < |fields| ==> fields[k].0 != key
    decreases |fields|
  {
    if |fields| == 0 then -1
    else if fields[|fields| - 1].0 == key then |fields| - 1
    else LastKeyIndex(fields[..|fields| - 1], key)
  }

  /** A key held at `j` and at no later index is found at `j`. */
  lemma {:induction false} LastKeyIndexAt(fields: seq<(string, Value)>, key: string, j: int)
    requires 0 <= j < |fields| && fields[j].0 == key
    requires forall k :: j < k < |fields| ==> fields[k].0 != key
    ensures LastKeyIndex(fields, key) == j
    decreases |fields|
  {
    if j < |fields| - 1 {
      LastKeyIndexAt(fields[..|fields| - 1], key, j);
    }
  }

  /** The value of an object's property: JSON.parse keeps the last of
      duplicate keys, and a missing key reads as undefined. */
  function LookupLast(fields: seq<(string, Value)>, key: string): Value {
    var j := LastKeyIndex(fields, key);
    if j < 0 then Undefined else fields[j].1
  }

  /** `v[key]` for a key that names no built-in property of strings, arrays,
      numbers or booleans: reading a property of undefined or null throws a
      TypeError, an object answers its own property, anything else answers
      undefined. */
  function GetProperty(v: Value, key: string): (r: Completion<Value>)
    ensures r.Threw? <==> v.Undefined? || v.Null?
    ensures v.Obj? ==> r == Returned(LookupLast(v.fields, key))
    ensures !v.Obj? && !v.Undefined? && !v.Null? ==> r == Returned(Undefined)
  {
    match v
    case Undefined => Threw
    case Null => Threw
    case Obj(fs) => Returned(LookupLast(fs, key))
    case _ => Returned(Undefined)
  }

  /** An array of strings as JSON would carry it. */
  function StrArr(ss: seq<string>): (r: Value)
    ensures r.Arr? && |r.items| == |ss|
    ensures forall i :: 0 <= i < |ss| ==> r.items[i] == Str(ss[i])
    decreases |ss|
  {
    if ss == [] then Arr([])
    else Arr([Str(ss[0])] + StrArr(ss[1..]).items)
  }

  /** ToPrimitive (section 7.1.1 of ECMA-262) succeeds on the value, as
      `+` needs. A plain object converts through its inherited `valueOf` and
      `toString`, unless it has an own `toString` property. A parsed one is
      never a function, so neither method yields a primitive, which is a
      TypeError. An array converts through `join`, which converts each item
      in turn. */
  predicate Coercible(v: Value)
    decreases v
  {
    match v
    case Obj(fs) => LastKeyIndex(fs, "toString") < 0
    case Arr(items) => forall i :: 0 <= i < |items| ==> Coercible(items[i])
    case _ => true
  }

  // ---------------------------------------------------------------------------
  // Strings
  // ---------------------------------------------------------------------------

  predicate IsUpperAscii(c: char) {
    'A' <= c <= 'Z'
  }

  /** toLowerCase on one character; only the ASCII letters are folded. */
  function LowerChar(c: char): (d: char)
    ensures !IsUpperAscii(d)
    ensures !IsUpperAscii(c) ==> d == c
  {
    if IsUpperAscii(c) then (c as int + 32) as char else c
  }

  /** String.prototype.toLowerCase, restricted to ASCII case folding. */
  function Lower(s: string): (r: string)
    ensures |r| == |s|
    ensures forall i :: 0 <= i < |s| ==> r[i] == LowerChar(s[i])
  {
    seq(|s|, i requires 0 <= i < |s| => LowerChar(s[i]))
  }

  /** Folding case twice is the same as folding it once. */
  lemma LowerIdempotent(s: string)
    ensures Lower(Lower(s)) == Lower(s)
  {
    var once := Lower(s);
    assert forall i :: 0 <= i < |s| ==> LowerChar(once[i]) == once[i];
  }

  /** `needle` occurs in `hay` starting at index `i`. */
  predicate OccursAt(hay: string, needle: string, i: int) {
    0 <= i && i + |needle| <= |hay|
    && forall k :: 0 <= k < |needle| ==> hay[i + k] == needle[k]
  }

  /** The reference meaning of `hay.includes(needle)`. */
  predicate Contains(hay: string, needle: string) {
    exists i | 0 <= i <= |hay| - |needle| :: OccursAt(hay, needle, i)
  }

  /** String.prototype.includes as a left-to-right scan. The model itself
      uses the predicate `Contains`; this scan shows that `Contains` is what
      the built-in computes. */
  method Includes(hay: string, needle: string) returns (found: bool)
    ensures found <==> Contains(hay, needle)
  {
    var i := 0;
    while i + |needle| <= |hay|
      invariant 0 <= i
      invariant forall j :: 0 <= j < i ==> !OccursAt(hay, needle, j)
      decreases |hay| - i
    {
      if hay[i..i + |needle|] == needle {
        assert OccursAt(hay, needle, i);
        return true;
      }
      i := i + 1;
    }
    return false;
  }

  /** The WhiteSpace and LineTerminator code points of ECMAScript
      (sections 12.2 and 12.3 of ECMA-262), which trim removes. */
  predicate IsWhiteSpace(c: char) {
    c == ' ' || c == '\t' || c == '\n' || c == '\r'
    || c == '\U{000B}' || c == '\U{000C}' || c == '\U{00A0}' || c == '\U{FEFF}'
    || c == '\U{1680}' || ('\U{2000}' <= c <= '\U{200A}')
    || c == '\U{2028}' || c == '\U{2029}' || c == '\U{202F}' || c == '\U{205F}'
    || c == '\U{3000}'
  }

  /** Number of white-space characters at the front of `s`. */
  function LeadingSpace(s: string): (n: nat)
    ensures n <= |s|
    ensures forall k :: 0 <= k < n ==> IsWhiteSpace(s[k])
    ensures n < |s| ==> !IsWhiteSpace(s[n])
    decreases |s|
  {
    if s == [] || !IsWhiteSpace(s[0]) then 0 else 1 + LeadingSpace(s[1..])
  }

  /** Number of white-space characters at the back of `s`. */
  function TrailingSpace(s: string): (n: nat)
    ensures n <= |s|
    ensures forall k :: |s| - n <= k < |s| ==> IsWhiteSpace(s[k])
    ensures n < |s| ==> !IsWhiteSpace(s[|s| - n - 1])
    decreases |s|
  {
    if s == [] || !IsWhiteSpace(s[|s| - 1]) then 0
    else 1 + TrailingSpace(s[..|s| - 1])
  }

  /** String.prototype.trim: the text between the leading and trailing white space. */
  function Trim(s: string): (r: string)
    ensures r == [] <==> forall k :: 0 <= k < |s| ==> IsWhiteSpace(s[k])
    ensures r != [] ==> !IsWhiteSpace(r[0]) && !IsWhiteSpace(r[|r| - 1])
    ensures Contains(s, r)
    ensures exists a | 0 <= a <= |s| - |r| :: TrimmedAt(s, r, a)
  {
    var a := LeadingSpace(s);
    var rest := s[a..];
    var b := |rest| - TrailingSpace(rest);
    assert OccursAt(s, rest[..b], a) by {
      assert s[a..a + b] == rest[..b];
    }
    assert TrimmedAt(s, rest[..b], a) by {
      assert s[a..a + b] == rest[..b];
      forall k | a + b <= k < |s|
        ensures IsWhiteSpace(s[k])
      {
        assert s[k] == rest[k - a];
      }
    }
    rest[..b]
  }

  /** `r` sits at index `a` of `s`, and everything before and after it is
      white space: only the two ends were removed. */
  predicate TrimmedAt(s: string, r: string, a: int) {
    0 <= a && a + |r| <= |s| && s[a..a + |r|] == r
    && (forall k :: 0 <= k < a ==> IsWhiteSpace(s[k]))
    && (forall k :: a + |r| <= k < |s| ==> IsWhiteSpace(s[k]))
  }

  // ---------------------------------------------------------------------------
  // Arrays
  // ---------------------------------------------------------------------------

  /** The start/end argument of Array.prototype.slice resolved against a
      length: negative values count from the end, and both are clamped. */
  function RelativeIndex(k: int, len: nat): (r: nat)
    ensures r <= len
    ensures 0 <= k ==> r == Min(k, len)
    ensures k < 0 ==> r == Max(len + k, 0)
  {
    if k < 0 then (if len + k < 0 then 0 else len + k)
    else if k > len then len
    else k
  }

  /** Array.prototype.slice(start, end) on integer arguments. */
  function Slice<T>(s: seq<T>, start: int, end: int): (r: seq<T>)
    ensures |r| <= |s|
    ensures 0 <= start <= end ==> r == s[Min(start, |s|)..Min(end, |s|)]
    ensures 0 <= end <= start ==> r == []
  {
    var from := RelativeIndex(start, |s|);
    var to := RelativeIndex(end, |s|);
    if from < to then s[from..to] else []
  }
}
