/** The slice of JavaScript's value model that the dashboard's data layer
    relies on: property lookup on plain objects, truthiness, `String(...)`,
    ASCII case mapping, `trim` and `includes`. */
module Js {

  datatype Option<+T> = None | Some(value: T)

  /** A JavaScript value as the dashboard's rows and filters carry it.
      Amounts and counts are rupiah and integers, so numbers are `int`.
      `Undefined` is what reading an absent property yields. */
  datatype Value = Undefined | Null | Str(s: string) | Num(n: int)

  /** A plain object: its own enumerable properties in insertion order. */
  type Record = seq<(string, Value)>

  /** `obj[key]`: the value of the first property named `key`, or
      `Undefined` when there is none. */
  function Get(r: Record, key: string): Value
  {
    if |r| == 0 then Undefined
    else if r[0].0 == key then r[0].1
    else Get(r[1..], key)
  }

  /** The first property named `key` decides the lookup. */
  lemma {:induction false} GetAt(r: Record, key: string, i: nat)
    requires i < |r| && r[i].0 == key
    requires forall j :: 0 <= j < i ==> r[j].0 != key
    ensures Get(r, key) == r[i].1
  {
    if i > 0 {
      GetAt(r[1..], key, i - 1);
    }
  }

  /** The callback `d => d[key]`. */
  function FieldOf(key: string): Record -> Value
  {
    d => Get(d, key)
  }

  /** `Object.keys(obj)` */
  function Keys(r: Record): (ks: seq<string>)
    ensures |ks| == |r| && forall i :: 0 <= i < |r| ==> ks[i] == r[i].0
  {
    seq(|r|, i requires 0 <= i < |r| => r[i].0)
  }

  /** `Object.values(obj)` */
  function Values(r: Record): (vs: seq<Value>)
    ensures |vs| == |r| && forall i :: 0 <= i < |r| ==> vs[i] == r[i].1
  {
    seq(|r|, i requires 0 <= i < |r| => r[i].1)
  }

  /** The value as a condition: `undefined`, `null`, `''` and `0` are falsy. */
  predicate Truthy(v: Value)
  {
    match v
    case Undefined => false
    case Null => false
    case Str(s) => s != ""
    case Num(n) => n != 0
  }

  function DigitChar(d: int): char
    requires 0 <= d < 10
  {
    "0123456789"[d]
  }

  function NatToString(n: nat): (s: string)
    ensures |s| > 0
  {
    if n < 10 then [DigitChar(n)] else NatToString(n / 10) + [DigitChar(n % 10)]
  }

  /** `String(n)` for an integral number. */
  function IntToString(n: int): string
  {
    if n < 0 then "-" + NatToString(-n) else NatToString(n)
  }

  /** `String(v)`, which is also what a template literal `${v}` inserts. */
  function ToStr(v: Value): string
  {
    match v
    case Undefined => "undefined"
    case Null => "null"
    case Str(s) => s
    case Num(n) => IntToString(n)
  }

  /** The text `Array.prototype.join` writes for one element: `null` and
      `undefined` become the empty string. */
  function JoinPiece(v: Value): string
  {
    if v == Undefined || v == Null then "" else ToStr(v)
  }

  /** `parts.join(sep)` */
  function Join(parts: seq<string>, sep: string): string
  {
    if |parts| == 0 then ""
    else if |parts| == 1 then parts[0]
    else Join(parts[..|parts| - 1], sep) + sep + parts[|parts| - 1]
  }

  function LowerChar(c: char): char
  {
    if 'A' <= c <= 'Z' then (c as int + 32) as char else c
  }

  function UpperChar(c: char): char
  {
    if 'a' <= c <= 'z' then (c as int - 32) as char else c
  }

  /** `s.toLowerCase()` on ASCII letters. */
  function Lower(s: string): (r: string)
    ensures |r| == |s| && forall i :: 0 <= i < |s| ==> r[i] == LowerChar(s[i])
  {
    seq(|s|, i requires 0 <= i < |s| => LowerChar(s[i]))
  }

  /** `s.toUpperCase()` on ASCII letters. */
  function Upper(s: string): (r: string)
    ensures |r| == |s| && forall i :: 0 <= i < |s| ==> r[i] == UpperChar(s[i])
  {
    seq(|s|, i requires 0 <= i < |s| => UpperChar(s[i]))
  }

  /** The white space `trim` removes (the ASCII and BOM/no-break ones). */
  predicate IsSpace(c: char)
  {
    c == ' ' || c == '\t' || c == '\n' || c == '\r' || c == '\U{000B}' || c == '\U{000C}'
    || c == '\U{00A0}' || c == '\U{FEFF}'
  }

  function TrimStart(s: string): (r: string)
    ensures |r| <= |s|
    ensures |r| > 0 ==> !IsSpace(r[0])
    ensures r == s[|s| - |r|..]
  {
    if |s| > 0 && IsSpace(s[0]) then TrimStart(s[1..]) else s
  }

  function TrimEnd(s: string): (r: string)
    ensures |r| <= |s|
    ensures |r| > 0 ==> !IsSpace(r[|r| - 1])
    ensures r == s[..|r|]
  {
    if |s| > 0 && IsSpace(s[|s| - 1]) then TrimEnd(s[..|s| - 1]) else s
  }

  /** `s.trim()` */
  function Trim(s: string): string
  {
    TrimEnd(TrimStart(s))
  }

  /** A string trims to nothing exactly when it is all white space. */
  lemma TrimBlank(s: string)
    ensures Trim(s) == "" <==> forall i :: 0 <= i < |s| ==> IsSpace(s[i])
  {
    TrimStartBlank(s);
    var r := TrimStart(s);
    if |r| > 0 {
      TrimEndKeepsFirst(r);
    }
  }

  lemma {:induction false} TrimStartBlank(s: string)
    ensures TrimStart(s) == "" <==> forall i :: 0 <= i < |s| ==> IsSpace(s[i])
    decreases |s|
  {
    if |s| > 0 && IsSpace(s[0]) {
      TrimStartBlank(s[1..]);
      assert forall i :: 1 <= i < |s| ==> s[i] == s[1..][i - 1];
    }
  }

  /** Trimming the end of a string that starts with a non-space leaves it
      non-empty. */
  lemma {:induction false} TrimEndKeepsFirst(r: string)
    requires |r| > 0 && !IsSpace(r[0])
    ensures |TrimEnd(r)| > 0
    decreases |r|
  {
    if |r| > 1 && IsSpace(r[|r| - 1]) {
      TrimEndKeepsFirst(r[..|r| - 1]);
    }
  }

  /** `q` occurs in `s` starting at index `i`. */
  predicate OccursAt(s: string, q: string, i: int)
  {
    0 <= i && i + |q| <= |s| && s[i..i + |q|] == q
  }

  /** `s.includes(q)` */
  predicate Contains(s: string, q: string)
  {
    exists i | 0 <= i <= |s| - |q| :: OccursAt(s, q, i)
  }

  lemma EmptyContained(s: string)
    ensures Contains(s, "")
  {
    assert OccursAt(s, "", 0);
  }

  /** Containment is transitive: what occurs in `q` occurs wherever `q` does. */
  lemma {:induction false} ContainsTransitive(s: string, q: string, p: string)
    requires Contains(s, q) && Contains(q, p)
    ensures Contains(s, p)
  {
    var i :| 0 <= i <= |s| - |q| && OccursAt(s, q, i);
    var j :| 0 <= j <= |q| - |p| && OccursAt(q, p, j);
    forall k | 0 <= k < |p|
      ensures s[i + j + k] == p[k]
    {
      assert q[j..j + |p|][k] == p[k];
      assert s[i..i + |q|][j + k] == q[j + k];
    }
    assert s[i + j..i + j + |p|] == p;
    assert OccursAt(s, p, i + j);
  }

  /** Lowering case maps every occurrence to an occurrence. */
  lemma {:induction false} LowerPreservesContains(s: string, q: string)
    requires Contains(s, q)
    ensures Contains(Lower(s), Lower(q))
  {
    var i :| 0 <= i <= |s| - |q| && OccursAt(s, q, i);
    assert Lower(s)[i..i + |q|] == Lower(q) by {
      forall k | 0 <= k < |q|
        ensures Lower(s)[i..i + |q|][k] == Lower(q)[k]
      {
        assert s[i..i + |q|][k] == q[k];
      }
    }
    assert OccursAt(Lower(s), Lower(q), i);
  }

  lemma LowerIdempotent(s: string)
    ensures Lower(Lower(s)) == Lower(s)
  {
  }
}
