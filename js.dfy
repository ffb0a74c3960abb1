/** The JavaScript values the chat client handles, and the few built-in
    operations on them that its code relies on: truthiness, `String(v)`,
    loose equality with a string literal, property and index access,
    `trim`, `parseInt` and `Array.prototype.join`. */
module Js {

  datatype Option<+T> = None | Some(value: T)

  /** What `new Date(...)` yields: a timestamp in milliseconds, or an invalid date. */
  datatype Date = At(ms: int) | InvalidDate

  /** A JavaScript value as it arrives from `JSON.parse` or is built by the
      client. Numbers are integers here. `NativeFn` stands for a built-in
      method found by property lookup (only `Array.prototype.values`). */
  datatype Value =
    | Undefined
    | Null
    | Bool(b: bool)
    | Num(n: int)
    | Str(s: string)
    | Arr(items: seq<Value>)
    | Obj(fields: map<string, Value>)
    | NativeFn

  /** A browser `File`: its name and an opaque handle standing for its bytes. */
  datatype File = File(name: string, handle: nat)

  /** JavaScript truthiness. */
  predicate Truthy(v: Value) {
    match v
    case Undefined => false
    case Null => false
    case Bool(b) => b
    case Num(n) => n != 0
    case Str(s) => s != ""
    case _ => true
  }

  /** `o[key]` on a plain object: `undefined` when the key is absent. */
  function Get(m: map<string, Value>, key: string): Value {
    if key in m then m[key] else Undefined
  }

  /** `v.key`; None is the TypeError thrown when `v` is undefined or null. */
  function Prop(v: Value, key: string): (r: Option<Value>)
    ensures r.None? <==> (v.Undefined? || v.Null?)
    ensures v.Obj? ==> r == Some(Get(v.fields, key))
  {
    match v
    case Undefined => None
    case Null => None
    case Obj(m) => Some(Get(m, key))
    case Arr(_) => Some(if key == "values" then NativeFn else Undefined)
    case _ => Some(Undefined)
  }

  /** `v[i]` for a numeric index; None is the TypeError on undefined or null. */
  function Index(v: Value, i: nat): (r: Option<Value>)
    ensures r.None? <==> (v.Undefined? || v.Null?)
    ensures v.Arr? ==> r == Some(if i < |v.items| then v.items[i] else Undefined)
  {
    match v
    case Undefined => None
    case Null => None
    case Arr(items) => Some(if i < |items| then items[i] else Undefined)
    case Str(t) => Some(if i < |t| then Str([t[i]]) else Undefined)
    case Obj(m) => Some(Get(m, NatToString(i)))
    case _ => Some(Undefined)
  }

  predicate IsDecimalDigit(c: char) {
    '0' <= c <= '9'
  }

  function DigitChar(d: nat): (c: char)
    requires d < 10
    ensures IsDecimalDigit(c)
  {
    "0123456789"[d]
  }

  /** Decimal notation of a natural number, without leading zeros. */
  function NatToString(n: nat): (r: string)
    ensures 1 <= |r|
    ensures forall i :: 0 <= i < |r| ==> IsDecimalDigit(r[i])
    ensures r[0] == '0' ==> n == 0 && r == "0"
  {
    if n < 10 then [DigitChar(n)] else NatToString(n / 10) + [DigitChar(n % 10)]
  }

  /** `String(n)` for an integer. */
  function IntToString(n: int): string {
    if n < 0 then "-" + NatToString(-n) else NatToString(n)
  }

  /** `String(v)`, as used by template literals. */
  function ToStr(v: Value): string
    decreases v
  {
    match v
    case Undefined => "undefined"
    case Null => "null"
    case Bool(b) => if b then "true" else "false"
    case Num(n) => IntToString(n)
    case Str(s) => s
    case Arr(items) =>
      // Array.prototype.join(","): undefined and null elements print as ""
      Join(seq(|items|, i requires 0 <= i < |items| =>
             if items[i].Undefined? || items[i].Null? then "" else ToStr(items[i])), ",")
    case Obj(_) => "[object Object]"
    case NativeFn => "function values() { [native code] }"
  }

  /** `${v || ""}` in a template literal. */
  function OrEmpty(v: Value): (r: string)
    ensures !Truthy(v) ==> r == ""
    ensures v.Str? ==> r == v.s
  {
    if Truthy(v) then ToStr(v) else ""
  }

  /** The own enumerable properties `{...v}` copies: an object's fields, the
      indexed elements of an array or the characters of a string, and none
      for anything else (spreading `null` or a number gives `{}`). */
  function SpreadFields(v: Value): map<string, Value> {
    match v
    case Obj(m) => m
    case Arr(items) => IndexedFields(items, |items|)
    case Str(t) => IndexedFields(seq(|t|, i requires 0 <= i < |t| => Str([t[i]])), |t|)
    case _ => map[]
  }

  function IndexedFields(items: seq<Value>, n: nat): map<string, Value>
    requires n <= |items|
  {
    if n == 0 then map[] else IndexedFields(items, n - 1)[NatToString(n - 1) := items[n - 1]]
  }

  /** date-fns `format(d, "yyyy-MM-dd")` applied to a timestamp, given the
      formatting itself as `day`. */
  function FormatDate(day: int -> string, d: Date): (r: Option<string>)
    ensures r.None? <==> d.InvalidDate?
  {
    match d
    case At(ms) => Some(day(ms))
    case InvalidDate => None
  }

  /** `parts.join(sep)`. */
  function Join(parts: seq<string>, sep: string): string {
    if |parts| == 0 then ""
    else if |parts| == 1 then parts[0]
    else parts[0] + sep + Join(parts[1..], sep)
  }

  /** Concatenation of a sequence of strings. */
  function Concat(parts: seq<string>): string {
    if |parts| == 0 then "" else parts[0] + Concat(parts[1..])
  }

  lemma {:induction false} ConcatSnoc(parts: seq<string>, last: string)
    ensures Concat(parts + [last]) == Concat(parts) + last
  {
    if |parts| > 0 {
      ConcatSnoc(parts[1..], last);
      assert (parts + [last])[1..] == parts[1..] + [last];
    }
  }

  /** `xs.map(f)`. */
  function MapSeq<A, B>(f: A -> B, xs: seq<A>): (r: seq<B>)
    ensures |r| == |xs|
    ensures forall k :: 0 <= k < |xs| ==> r[k] == f(xs[k])
  {
    if |xs| == 0 then [] else MapSeq(f, xs[..|xs| - 1]) + [f(xs[|xs| - 1])]
  }

  /** All the parts together are all but the last, then the last. */
  lemma ConcatInitLast(parts: seq<string>)
    requires |parts| > 0
    ensures Concat(parts) == Concat(parts[..|parts| - 1]) + parts[|parts| - 1]
  {
    var init, last := parts[..|parts| - 1], parts[|parts| - 1];
    InitLast(parts);
    ConcatSnoc(init, last);
  }

  lemma InitLast<T>(s: seq<T>)
    requires |s| > 0
    ensures s == s[..|s| - 1] + [s[|s| - 1]]
  {
  }

  /** Concatenation is associative; stated once so that proofs in crowded
      contexts can cite it. */
  lemma SliceThree<T>(s: seq<T>, p: nat, q: nat, e: nat)
    requires p <= q <= e <= |s|
    ensures s[p..] == s[p..q] + s[q..e] + s[e..]
  {
  }

  lemma AppendAssoc(a: string, b: string, c: string)
    ensures a + b + c == a + (b + c)
  {
  }

  predicate StartsWith(s: string, prefix: string) {
    |prefix| <= |s| && s[..|prefix|] == prefix
  }

  /** Text placed between an opening and a closing starts with the one and
      ends with the other. */
  lemma Framed(opening: string, body: string, closing: string)
    ensures StartsWith(opening + body + closing, opening)
    ensures var h := opening + body + closing; h[|h| - |closing|..] == closing
  {
    var h := opening + body + closing;
    assert h[..|opening|] == opening;
    assert h[|h| - |closing|..] == closing;
  }

  /** The characters matched by `\s` and removed by `trim` (WhiteSpace and
      LineTerminator of ECMAScript). */
  predicate IsJsWhitespace(c: char) {
    c == '\t' || c == '\n' || c == '\U{000B}' || c == '\U{000C}' || c == '\r' || c == ' '
    || c == '\U{00A0}' || c == '\U{1680}' || ('\U{2000}' <= c <= '\U{200A}')
    || c == '\U{2028}' || c == '\U{2029}' || c == '\U{202F}' || c == '\U{205F}'
    || c == '\U{3000}' || c == '\U{FEFF}'
  }

  function TrimStart(s: string): (r: string)
    ensures |r| <= |s| && r == s[|s| - |r|..]
    ensures r == "" || !IsJsWhitespace(r[0])
  {
    if |s| > 0 && IsJsWhitespace(s[0]) then TrimStart(s[1..]) else s
  }

  function TrimEnd(s: string): (r: string)
    ensures |r| <= |s| && r == s[..|r|]
    ensures r == "" || !IsJsWhitespace(r[|r| - 1])
  {
    if |s| > 0 && IsJsWhitespace(s[|s| - 1]) then TrimEnd(s[..|s| - 1]) else s
  }

  /** `s.trim()`. */
  function Trim(s: string): string {
    TrimEnd(TrimStart(s))
  }

  predicate AllWhitespace(s: string) {
    forall i :: 0 <= i < |s| ==> IsJsWhitespace(s[i])
  }

  lemma {:induction false} TrimStartEmpty(s: string)
    ensures TrimStart(s) == "" <==> AllWhitespace(s)
  {
    if |s| > 0 && IsJsWhitespace(s[0]) {
      TrimStartEmpty(s[1..]);
      assert AllWhitespace(s[1..]) ==> AllWhitespace(s) by {
        if AllWhitespace(s[1..]) {
          forall i | 0 <= i < |s| ensures IsJsWhitespace(s[i]) {
            if i > 0 { assert s[i] == s[1..][i - 1]; }
          }
        }
      }
    }
  }

  lemma {:induction false} TrimEndEmpty(s: string)
    ensures TrimEnd(s) == "" <==> AllWhitespace(s)
  {
    if |s| > 0 && IsJsWhitespace(s[|s| - 1]) {
      TrimEndEmpty(s[..|s| - 1]);
      assert AllWhitespace(s[..|s| - 1]) ==> AllWhitespace(s) by {
        if AllWhitespace(s[..|s| - 1]) {
          forall i | 0 <= i < |s| ensures IsJsWhitespace(s[i]) {
            if i < |s| - 1 { assert s[i] == s[..|s| - 1][i]; }
          }
        }
      }
    }
  }

  /** `s.trim()` is empty exactly when every character of `s` is white space. */
  lemma TrimEmptyIffAllWhitespace(s: string)
    ensures Trim(s) == "" <==> AllWhitespace(s)
  {
    TrimStartEmpty(s);
    TrimEndEmpty(TrimStart(s));
  }

  // ---------------------------------------------------------------- parseInt

  /** The value of one digit in the given radix (10 or 16), if it is one. */
  function DigitValue(c: char, radix: nat): Option<nat> {
    if '0' <= c <= '9' && (c as int) - ('0' as int) < radix then Some((c as int) - ('0' as int))
    else if radix == 16 && 'a' <= c <= 'f' then Some((c as int) - ('a' as int) + 10)
    else if radix == 16 && 'A' <= c <= 'F' then Some((c as int) - ('A' as int) + 10)
    else None
  }

  /** Length of the longest prefix of `s` made of digits of the radix. */
  function DigitRun(s: string, radix: nat): (k: nat)
    ensures k <= |s|
    ensures forall i :: 0 <= i < k ==> DigitValue(s[i], radix).Some?
    ensures k < |s| ==> DigitValue(s[k], radix).None?
  {
    if |s| > 0 && DigitValue(s[0], radix).Some? then 1 + DigitRun(s[1..], radix) else 0
  }

  /** The number a string of digits denotes (most significant first). */
  function DigitsValue(ds: string, radix: nat): nat
    requires forall i :: 0 <= i < |ds| ==> DigitValue(ds[i], radix).Some?
  {
    if |ds| == 0 then 0
    else DigitsValue(ds[..|ds| - 1], radix) * radix + DigitValue(ds[|ds| - 1], radix).value
  }

  /** The unsigned part of `parseInt`: an optional `0x`/`0X` prefix that
      selects radix 16, then the longest run of digits; None when there is none. */
  function ParseUnsigned(u: string): Option<nat> {
    var hex := |u| >= 2 && u[0] == '0' && (u[1] == 'x' || u[1] == 'X');
    var radix := if hex then 16 else 10;
    var w := if hex then u[2..] else u;
    var k := DigitRun(w, radix);
    if k == 0 then None else Some(DigitsValue(w[..k], radix))
  }

  /** `parseInt(s)` with no radix: leading white space, an optional sign, then
      the unsigned part. None is `NaN`. */
  function ParseInt(s: string): Option<int> {
    var t := TrimStart(s);
    var neg := |t| > 0 && t[0] == '-';
    var u := if |t| > 0 && (t[0] == '-' || t[0] == '+') then t[1..] else t;
    match ParseUnsigned(u)
    case None => None
    case Some(m) =>
      var r: int := if neg then 0 - (m as int) else m;
      Some(r)
  }

  lemma {:induction false} DigitsValueOfNatToString(n: nat)
    ensures forall i :: 0 <= i < |NatToString(n)| ==> DigitValue(NatToString(n)[i], 10).Some?
    ensures DigitsValue(NatToString(n), 10) == n
  {
    var r := NatToString(n);
    if n >= 10 {
      DigitsValueOfNatToString(n / 10);
      assert r[..|r| - 1] == NatToString(n / 10);
    }
  }

  lemma ParseUnsignedOfNatToString(m: nat)
    ensures ParseUnsigned(NatToString(m)) == Some(m)
  {
    var digits := NatToString(m);
    DigitsValueOfNatToString(m);
    assert |digits| >= 2 ==> IsDecimalDigit(digits[1]);
    DigitRunAll(digits, 10);
    assert digits[..|digits|] == digits;
  }

  /** `parseInt(String(n))` gives `n` back. */
  lemma ParseIntOfIntToString(n: int)
    ensures ParseInt(IntToString(n)) == Some(n)
  {
    var m: nat := if n < 0 then -n else n;
    ParseUnsignedOfNatToString(m);
    if n < 0 {
      ParseIntNegative(NatToString(m), m);
    } else {
      ParseIntUnsigned(NatToString(m), m);
    }
  }

  /** A string that starts with a decimal digit is parsed by its unsigned part. */
  lemma ParseIntUnsigned(u: string, m: nat)
    requires |u| > 0 && IsDecimalDigit(u[0]) && ParseUnsigned(u) == Some(m)
    ensures ParseInt(u) == Some(m)
  {
    assert !IsJsWhitespace(u[0]);
    assert TrimStart(u) == u;
  }

  /** A minus sign before such a string negates it. */
  lemma ParseIntNegative(u: string, m: nat)
    requires |u| > 0 && IsDecimalDigit(u[0]) && ParseUnsigned(u) == Some(m)
    ensures ParseInt("-" + u) == Some(0 - m)
  {
    var s := "-" + u;
    assert s[0] == '-' && !IsJsWhitespace(s[0]);
    assert TrimStart(s) == s;
    assert s[1..] == u;
  }

  lemma {:induction false} DigitRunAll(s: string, radix: nat)
    requires forall i :: 0 <= i < |s| ==> DigitValue(s[i], radix).Some?
    ensures DigitRun(s, radix) == |s|
  {
    if |s| > 0 {
      DigitRunAll(s[1..], radix);
    }
  }

  // ---------------------------------------------------- loose equality

  /** `Number(s)` for a string, restricted to what this client compares with:
      a blank string is 0, an optionally signed run of decimal digits is its
      value, anything else is `NaN` (None). */
  function StringToNumber(s: string): Option<int> {
    var t := Trim(s);
    if t == "" then Some(0)
    else
      var neg := t[0] == '-';
      var u := if t[0] == '-' || t[0] == '+' then t[1..] else t;
      if u != "" && forall i :: 0 <= i < |u| ==> IsDecimalDigit(u[i]) then
        DigitsValueDecimal(u);
        var m: int := DigitsValue(u, 10);
        Some(if neg then 0 - m else m)
      else None
  }

  lemma DigitsValueDecimal(u: string)
    requires forall i :: 0 <= i < |u| ==> IsDecimalDigit(u[i])
    ensures forall i :: 0 <= i < |u| ==> DigitValue(u[i], 10).Some?
  {
  }

  /** `v == s` for a string `s` (the abstract equality comparison). */
  predicate LooseEqualsString(v: Value, s: string) {
    match v
    case Str(t) => t == s
    case Undefined => false
    case Null => false
    case Num(n) => StringToNumber(s) == Some(n)
    case Bool(b) => StringToNumber(s) == Some(if b then 1 else 0)
    case _ => ToStr(v) == s
  }

  /** A string that no number equals: not blank, and not a signed run of digits. */
  predicate NonNumeric(s: string) {
    StringToNumber(s).None?
  }

  /** Against a string literal that is not numeric, loose equality holds only
      for that very string, or for an array or object that prints as it. */
  lemma LooseEqualsNonNumeric(v: Value, s: string)
    requires NonNumeric(s)
    ensures LooseEqualsString(v, s) <==>
              v == Str(s) || ((v.Arr? || v.Obj? || v.NativeFn?) && ToStr(v) == s)
  {
  }
}
