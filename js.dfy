/**
 * The slice of JavaScript semantics the console's logic relies on: JSON-like
 * values and their truthiness, `String(v)`, `Number(v)`, the relational
 * operators, `trim`, ASCII case mapping, `split`/`join`, `includes`,
 * `startsWith`, `slice`, and the array combinators `filter` and `length`.
 */
module Js {

  datatype Option<+T> = None | Some(value: T)

  /** A JSON-like JavaScript value. Numbers are integers (money, counts, timestamps). */
  datatype JsVal =
    | Undef
    | Null
    | Bool(b: bool)
    | Num(n: int)
    | Str(s: string)
    | Obj(fields: map<string, JsVal>)

  /** `!!v` */
  predicate Truthy(v: JsVal) {
    match v
    case Undef => false
    case Null => false
    case Bool(b) => b
    case Num(n) => n != 0
    case Str(s) => s != ""
    case Obj(_) => true
  }

  /** `a || b`: the first operand when it is truthy, else the second. */
  function Or(a: JsVal, b: JsVal): (r: JsVal)
    ensures Truthy(a) ==> r == a
    ensures !Truthy(a) ==> r == b
    ensures Truthy(r) <==> Truthy(a) || Truthy(b)
  {
    if Truthy(a) then a else b
  }

  /** `a || b` on texts: the first unless it is empty. */
  function OrText(a: string, b: string): (r: string)
    ensures a != "" ==> r == a
    ensures a == "" ==> r == b
    ensures r == "" <==> a == "" && b == ""
  {
    if a != "" then a else b
  }

  /** `v?.k`: the property of an object, `undefined` for anything else or a missing key. */
  function Get(v: JsVal, k: string): JsVal {
    if v.Obj? && k in v.fields then v.fields[k] else Undef
  }

  /** `item[key]` on a record. */
  function Field(item: map<string, JsVal>, key: string): JsVal {
    if key in item then item[key] else Undef
  }

  /** `v === undefined || v === null || v === ''`, the test for an unset filter. */
  predicate IsEmptyValue(v: JsVal) {
    v == Undef || v == Null || v == Str("")
  }

  /** `a === b`. Objects are compared by reference in JavaScript; the model never equates two. */
  predicate StrictEq(a: JsVal, b: JsVal) {
    !a.Obj? && !b.Obj? && a == b
  }

  // ---------------------------------------------------------------- characters

  /** JavaScript's WhiteSpace and LineTerminator characters: the set `\s` and `trim` use. */
  predicate IsSpace(c: char) {
    || c == ' ' || c == '\t' || c == '\n' || c == '\r'
    || c == '\U{000B}' || c == '\U{000C}' || c == '\U{00A0}' || c == '\U{1680}'
    || ('\U{2000}' <= c <= '\U{200A}')
    || c == '\U{2028}' || c == '\U{2029}' || c == '\U{202F}' || c == '\U{205F}'
    || c == '\U{3000}' || c == '\U{FEFF}'
  }

  predicate IsDigit(c: char) { '0' <= c <= '9' }

  predicate IsUpperAscii(c: char) { 'A' <= c <= 'Z' }

  predicate IsLowerAscii(c: char) { 'a' <= c <= 'z' }

  function LowerChar(c: char): (r: char)
    ensures !IsUpperAscii(r)
    ensures !IsUpperAscii(c) ==> r == c
  {
    if IsUpperAscii(c) then (c as int + 32) as char else c
  }

  function UpperChar(c: char): (r: char)
    ensures !IsLowerAscii(r)
    ensures !IsLowerAscii(c) ==> r == c
  {
    if IsLowerAscii(c) then (c as int - 32) as char else c
  }

  /** `s.toLowerCase()` on the ASCII letters. */
  function Lower(s: string): (r: string)
    ensures |r| == |s|
    ensures forall i :: 0 <= i < |s| ==> r[i] == LowerChar(s[i])
  {
    if s == [] then [] else [LowerChar(s[0])] + Lower(s[1..])
  }

  /** `s.toUpperCase()` on the ASCII letters. */
  function Upper(s: string): (r: string)
    ensures |r| == |s|
    ensures forall i :: 0 <= i < |s| ==> r[i] == UpperChar(s[i])
  {
    if s == [] then [] else [UpperChar(s[0])] + Upper(s[1..])
  }

  lemma LowerConcat(a: string, b: string)
    ensures Lower(a + b) == Lower(a) + Lower(b)
  {
    assert Lower(a + b) == Lower(a) + Lower(b) by {
      forall i | 0 <= i < |a| + |b|
        ensures Lower(a + b)[i] == (Lower(a) + Lower(b))[i]
      {
      }
    }
  }

  // ---------------------------------------------------------------- trimming

  function TrimStart(s: string): (r: string)
    ensures |r| <= |s| && r == s[|s| - |r|..]
    ensures r == [] || !IsSpace(r[0])
    ensures forall i :: 0 <= i < |s| - |r| ==> IsSpace(s[i])
    ensures (forall i :: 0 <= i < |s| ==> IsSpace(s[i])) ==> r == []
  {
    if s != [] && IsSpace(s[0]) then TrimStart(s[1..]) else s
  }

  function TrimEnd(s: string): (r: string)
    ensures |r| <= |s| && r == s[..|r|]
    ensures r == [] || !IsSpace(r[|r| - 1])
    ensures forall i :: |r| <= i < |s| ==> IsSpace(s[i])
  {
    if s != [] && IsSpace(s[|s| - 1]) then TrimEnd(s[..|s| - 1]) else s
  }

  /** `s.trim()` */
  function Trim(s: string): (r: string)
    ensures r == [] || (!IsSpace(r[0]) && !IsSpace(r[|r| - 1]))
  {
    TrimEnd(TrimStart(s))
  }

  /** A string `trim` leaves unchanged. */
  predicate IsTrimmed(s: string) {
    s == [] || (!IsSpace(s[0]) && !IsSpace(s[|s| - 1]))
  }

  /** `!s.trim()`: empty or whitespace only. */
  predicate IsBlank(s: string) {
    Trim(s) == []
  }

  lemma BlankIffAllSpace(s: string)
    ensures IsBlank(s) <==> forall i :: 0 <= i < |s| ==> IsSpace(s[i])
  {
    if IsBlank(s) {
      assert |TrimStart(s)| == 0;
    }
  }

  lemma TrimOfTrimmed(s: string)
    requires IsTrimmed(s)
    ensures Trim(s) == s
  {
  }

  lemma {:induction false} TrimLeadingSpace(s: string)
    requires IsTrimmed(s)
    ensures Trim([' '] + s) == s
  {
    assert ([' '] + s)[1..] == s;
    assert TrimStart([' '] + s) == TrimStart(s);
  }

  lemma TrimIsTrimmed(s: string)
    ensures IsTrimmed(Trim(s))
  {
  }

  // ---------------------------------------------------------------- searching

  predicate IsPrefix(p: string, s: string) {
    |p| <= |s| && s[..|p|] == p
  }

  /** `s.startsWith(p)` */
  predicate StartsWith(s: string, p: string) {
    IsPrefix(p, s)
  }

  /** `s.includes(sub)` */
  predicate Contains(s: string, sub: string)
    decreases |s|
  {
    IsPrefix(sub, s) || (s != [] && Contains(s[1..], sub))
  }

  /** `sub` occurs in `s` starting at position `i`. */
  predicate OccursAt(s: string, sub: string, i: nat)
    requires i <= |s|
  {
    IsPrefix(sub, s[i..])
  }

  /** Every `includes` answer comes with the position of an occurrence... */
  lemma {:induction false} ContainsWitness(s: string, sub: string) returns (i: nat)
    requires Contains(s, sub)
    ensures i <= |s| && OccursAt(s, sub, i)
    decreases |s|
  {
    if IsPrefix(sub, s) {
      i := 0;
      assert s[0..] == s;
    } else {
      var j := ContainsWitness(s[1..], sub);
      assert s[1..][j..] == s[j + 1..];
      i := j + 1;
    }
  }

  /** ... and every occurrence makes `includes` true. */
  lemma {:induction false} OccursAtContains(s: string, sub: string, i: nat)
    requires i <= |s| && OccursAt(s, sub, i)
    ensures Contains(s, sub)
    decreases i
  {
    if i == 0 {
      assert s[0..] == s;
    } else {
      assert s[1..][i - 1..] == s[i..];
      OccursAtContains(s[1..], sub, i - 1);
    }
  }

  lemma {:induction false} ContainsChar(s: string, c: char)
    ensures Contains(s, [c]) <==> c in s
    decreases |s|
  {
    if s != [] {
      ContainsChar(s[1..], c);
      assert s == [s[0]] + s[1..];
    }
  }

  /** `s.split(c)[0]`: the text before the first `c`, or all of `s`. */
  function Before(s: string, c: char): (r: string)
    ensures IsPrefix(r, s)
    ensures c !in r
    ensures |r| < |s| ==> s[|r|] == c
  {
    if s == [] then [] else if s[0] == c then [] else [s[0]] + Before(s[1..], c)
  }

  /** Cutting `p + rest` at `c`, where `p` has no `c` and `rest` is empty or starts with `c`, gives `p`. */
  lemma {:induction false} BeforeConcat(p: string, rest: string, c: char)
    requires c !in p
    requires rest == [] || rest[0] == c
    ensures Before(p + rest, c) == p
    decreases |p|
  {
    if p == [] {
      assert p + rest == rest;
    } else {
      assert (p + rest)[1..] == p[1..] + rest;
      BeforeConcat(p[1..], rest, c);
    }
  }

  /** `s.slice(-n)` for `n >= 1`: the last `n` characters, or all of a shorter `s`. */
  function LastN(s: string, n: nat): (r: string)
    requires n >= 1
    ensures |r| == if |s| < n then |s| else n
    ensures r == s[|s| - |r|..]
  {
    if |s| <= n then s else s[|s| - n..]
  }

  /** `s.replace(c, d)` with a one-character pattern: only the first `c` is replaced. */
  function ReplaceFirst(s: string, c: char, d: char): (r: string)
    ensures |r| == |s|
    ensures c !in s ==> r == s
  {
    if s == [] then [] else if s[0] == c then [d] + s[1..] else [s[0]] + ReplaceFirst(s[1..], c, d)
  }

  /** The first `c`, at `i`, becomes `d`; everything else stays. */
  lemma {:induction false} ReplaceFirstAt(s: string, c: char, d: char, i: nat)
    requires i < |s| && s[i] == c && c !in s[..i]
    ensures ReplaceFirst(s, c, d) == s[..i] + [d] + s[i + 1..]
  {
    if i > 0 {
      assert s[0] == s[..i][0];
      assert s[1..][..i - 1] == s[1..i];
      ReplaceFirstAt(s[1..], c, d, i - 1);
      assert s[..i] == [s[0]] + s[1..i];
    }
  }

  // ---------------------------------------------------------------- split and join

  /** `s.split(c)` with a one-character separator. */
  function Split(s: string, c: char): (r: seq<string>)
    ensures |r| >= 1
    ensures forall i :: 0 <= i < |r| ==> c !in r[i]
  {
    if s == [] then [[]]
    else
      var rest := Split(s[1..], c);
      if s[0] == c then [[]] + rest else [[s[0]] + rest[0]] + rest[1..]
  }

  /** `xs.join(sep)` */
  function Join(xs: seq<string>, sep: string): string {
    if xs == [] then [] else if |xs| == 1 then xs[0] else xs[0] + sep + Join(xs[1..], sep)
  }

  /** `s.split(c)[0]` is the text before the first `c`. */
  lemma {:induction false} SplitFirstIsBefore(s: string, c: char)
    ensures Split(s, c)[0] == Before(s, c)
    decreases |s|
  {
    if s != [] {
      SplitFirstIsBefore(s[1..], c);
    }
  }

  lemma {:induction false} SplitNoSeparator(s: string, c: char)
    requires c !in s
    ensures Split(s, c) == [s]
  {
    if s != [] {
      SplitNoSeparator(s[1..], c);
      assert [s[0]] + s[1..] == s;
    }
  }

  lemma {:induction false} SplitConcat(a: string, c: char, b: string)
    requires c !in a
    ensures Split(a + [c] + b, c) == [a] + Split(b, c)
  {
    if a == [] {
      assert ([c] + b)[1..] == b;
    } else {
      assert (a + [c] + b)[1..] == a[1..] + [c] + b;
      SplitConcat(a[1..], c, b);
      assert [a[0]] + a[1..] == a;
    }
  }

  // ---------------------------------------------------------------- numbers and strings

  function DigitChar(d: nat): (c: char)
    requires d < 10
    ensures IsDigit(c)
  {
    ('0' as int + d) as char
  }

  function DigitValue(c: char): (d: nat)
    requires IsDigit(c)
    ensures d < 10
  {
    c as int - '0' as int
  }

  predicate AllDigits(s: string) {
    forall i :: 0 <= i < |s| ==> IsDigit(s[i])
  }

  /** The decimal form of a natural number, as `String(n)` writes it. */
  function NatToString(n: nat): (r: string)
    ensures |r| >= 1 && AllDigits(r)
    ensures |r| > 1 ==> r[0] != '0'
  {
    if n < 10 then [DigitChar(n)] else NatToString(n / 10) + [DigitChar(n % 10)]
  }

  /** `String(n)` for an integer. */
  function IntToString(n: int): (r: string)
    ensures |r| >= 1
    ensures n >= 0 ==> AllDigits(r)
    ensures n < 0 ==> r[0] == '-' && AllDigits(r[1..])
  {
    if n >= 0 then NatToString(n) else "-" + NatToString(-n)
  }

  /** The value of a string of decimal digits. */
  function DigitsValue(s: string): nat
    requires AllDigits(s)
  {
    if s == [] then 0 else DigitsValue(s[..|s| - 1]) * 10 + DigitValue(s[|s| - 1])
  }

  lemma {:induction false} DigitsValueOfNatToString(n: nat)
    ensures DigitsValue(NatToString(n)) == n
  {
    if n >= 10 {
      var r := NatToString(n);
      DigitsValueOfNatToString(n / 10);
      assert r[..|r| - 1] == NatToString(n / 10);
    }
  }

  /** `Number(s)` for a string holding an optionally signed decimal integer; `None` is NaN. */
  function StringToNumber(s: string): (r: Option<int>) {
    var t := Trim(s);
    if t == [] then Some(0)
    else if AllDigits(t) then Some(DigitsValue(t))
    else if |t| > 1 && t[0] == '-' && AllDigits(t[1..]) then Some(-(DigitsValue(t[1..]) as int))
    else if |t| > 1 && t[0] == '+' && AllDigits(t[1..]) then Some(DigitsValue(t[1..]))
    else None
  }

  lemma DigitsAreTrimmed(s: string)
    requires AllDigits(s)
    ensures IsTrimmed(s) && IsTrimmed("-" + s)
  {
  }

  lemma NumberOfString(n: int)
    ensures StringToNumber(IntToString(n)) == Some(n)
  {
    var r := IntToString(n);
    if n >= 0 {
      DigitsAreTrimmed(r);
      TrimOfTrimmed(r);
      DigitsValueOfNatToString(n);
    } else {
      var d := NatToString(-n);
      assert r == "-" + d;
      DigitsAreTrimmed(d);
      TrimOfTrimmed(r);
      assert r[1..] == d;
      assert !AllDigits(r) by { assert !IsDigit(r[0]); }
      DigitsValueOfNatToString(-n);
    }
  }

  /** `String(v)` */
  function ToStr(v: JsVal): string {
    match v
    case Undef => "undefined"
    case Null => "null"
    case Bool(b) => if b then "true" else "false"
    case Num(n) => IntToString(n)
    case Str(s) => s
    case Obj(_) => "[object Object]"
  }

  /** `Number(v)`; `None` is NaN. Objects convert through "[object Object]", which is NaN. */
  function ToNumber(v: JsVal): Option<int> {
    match v
    case Undef => None
    case Null => Some(0)
    case Bool(b) => Some(if b then 1 else 0)
    case Num(n) => Some(n)
    case Str(s) => StringToNumber(s)
    case Obj(_) => None
  }

  /** `'0'`-padding to two characters: `s.padStart(2, '0')`. */
  function PadStart2(s: string): (r: string)
    ensures |s| >= 2 ==> r == s
    ensures |s| < 2 ==> |r| == 2 && r == seq(2 - |s|, _ => '0') + s
  {
    if |s| == 0 then "00" else if |s| == 1 then "0" + s else s
  }

  // ---------------------------------------------------------------- relational operators

  /** Code-unit order on strings, as `<` compares two strings. */
  predicate StrLess(a: string, b: string) {
    if a == [] then b != []
    else if b == [] then false
    else if a[0] != b[0] then a[0] < b[0]
    else StrLess(a[1..], b[1..])
  }

  lemma {:induction false} StrLessAsymmetric(a: string, b: string)
    ensures !(StrLess(a, b) && StrLess(b, a))
  {
    if a != [] && b != [] && a[0] == b[0] {
      StrLessAsymmetric(a[1..], b[1..]);
    }
  }

  /** ToPrimitive: objects become "[object Object]". */
  function Primitive(v: JsVal): JsVal {
    if v.Obj? then Str("[object Object]") else v
  }

  /**
   * The abstract relational comparison `a < b`: `Some(true)`, `Some(false)`, or
   * `None` when a NaN makes it undefined. Two strings compare by code units,
   * anything else numerically.
   */
  function Less(a: JsVal, b: JsVal): Option<bool> {
    var pa, pb := Primitive(a), Primitive(b);
    if pa.Str? && pb.Str? then Some(StrLess(pa.s, pb.s))
    else match (ToNumber(pa), ToNumber(pb))
      case (Some(x), Some(y)) => Some(x < y)
      case _ => None
  }

  /** `a < b` */
  predicate Lt(a: JsVal, b: JsVal) { Less(a, b) == Some(true) }

  /** `a > b` */
  predicate Gt(a: JsVal, b: JsVal) { Less(b, a) == Some(true) }

  /** `a <= b` */
  predicate Le(a: JsVal, b: JsVal) { Less(b, a) == Some(false) }

  /** `a >= b` */
  predicate Ge(a: JsVal, b: JsVal) { Less(a, b) == Some(false) }

  lemma LtAsymmetric(a: JsVal, b: JsVal)
    ensures !(Lt(a, b) && Lt(b, a))
  {
    var pa, pb := Primitive(a), Primitive(b);
    if pa.Str? && pb.Str? {
      StrLessAsymmetric(pa.s, pb.s);
    }
  }

  lemma NumericComparison(x: int, y: int)
    ensures Lt(Num(x), Num(y)) <==> x < y
    ensures Ge(Num(x), Num(y)) <==> x >= y
    ensures Le(Num(x), Num(y)) <==> x <= y
  {
  }

  // ---------------------------------------------------------------- sequences

  /** `s.filter(p)` */
  function Where<T>(s: seq<T>, p: T -> bool): (r: seq<T>)
    ensures |r| <= |s|
    ensures forall i :: 0 <= i < |r| ==> p(r[i])
  {
    if s == [] then [] else if p(s[0]) then [s[0]] + Where(s[1..], p) else Where(s[1..], p)
  }

  /** `s.filter(p).length` */
  function Count<T>(s: seq<T>, p: T -> bool): nat {
    |Where(s, p)|
  }

  /** `a` is `b` with some elements removed, the rest in their original order. */
  predicate IsSubseq<T(==)>(a: seq<T>, b: seq<T>)
    decreases |b|
  {
    a == [] || (b != [] && ((a[0] == b[0] && IsSubseq(a[1..], b[1..])) || IsSubseq(a, b[1..])))
  }

  lemma {:induction false} SubseqRefl<T>(s: seq<T>)
    ensures IsSubseq(s, s)
  {
    if s != [] { SubseqRefl(s[1..]); }
  }

  lemma {:induction false} SubseqTrans<T>(a: seq<T>, b: seq<T>, c: seq<T>)
    requires IsSubseq(a, b) && IsSubseq(b, c)
    ensures IsSubseq(a, c)
    decreases |c|
  {
    if a != [] {
      if b[0] == c[0] && IsSubseq(b[1..], c[1..]) {
        if a[0] == b[0] && IsSubseq(a[1..], b[1..]) {
          SubseqTrans(a[1..], b[1..], c[1..]);
        } else {
          SubseqTrans(a, b[1..], c[1..]);
        }
      } else {
        SubseqTrans(a, b, c[1..]);
      }
    }
  }

  lemma {:induction false} WhereIsSubseq<T>(s: seq<T>, p: T -> bool)
    ensures IsSubseq(Where(s, p), s)
  {
    if s != [] { WhereIsSubseq(s[1..], p); }
  }

  lemma {:induction false} WhereMembership<T>(s: seq<T>, p: T -> bool, x: T)
    ensures x in Where(s, p) <==> x in s && p(x)
  {
    if s != [] {
      WhereMembership(s[1..], p, x);
      assert s == [s[0]] + s[1..];
    }
  }

  lemma {:induction false} WhereAll<T>(s: seq<T>, p: T -> bool)
    requires forall i :: 0 <= i < |s| ==> p(s[i])
    ensures Where(s, p) == s
  {
    if s != [] { WhereAll(s[1..], p); }
  }

  lemma {:induction false} WhereNone<T>(s: seq<T>, p: T -> bool)
    requires forall i :: 0 <= i < |s| ==> !p(s[i])
    ensures Where(s, p) == []
  {
    if s != [] { WhereNone(s[1..], p); }
  }

  /** A property every element has is kept by every filter. */
  lemma {:induction false} WherePreserves<T>(s: seq<T>, p: T -> bool, q: T -> bool)
    requires forall i :: 0 <= i < |s| ==> q(s[i])
    ensures forall i :: 0 <= i < |Where(s, p)| ==> q(Where(s, p)[i])
  {
    if s != [] {
      WherePreserves(s[1..], p, q);
      var rest := Where(s[1..], p);
      if p(s[0]) {
        assert Where(s, p) == [s[0]] + rest;
      } else {
        assert Where(s, p) == rest;
      }
    }
  }

  lemma {:induction false} WhereWhere<T>(s: seq<T>, p: T -> bool, q: T -> bool)
    ensures Where(Where(s, p), q) == Where(s, x => p(x) && q(x))
  {
    if s != [] {
      WhereWhere(s[1..], p, q);
    }
  }

  lemma {:induction false} WhereSame<T>(s: seq<T>, p: T -> bool, q: T -> bool)
    requires forall i :: 0 <= i < |s| ==> (p(s[i]) <==> q(s[i]))
    ensures Where(s, p) == Where(s, q)
  {
    if s != [] { WhereSame(s[1..], p, q); }
  }

  lemma {:induction false} WhereConcat<T>(a: seq<T>, b: seq<T>, p: T -> bool)
    ensures Where(a + b, p) == Where(a, p) + Where(b, p)
  {
    if a == [] {
      assert a + b == b;
    } else {
      assert (a + b)[1..] == a[1..] + b;
      WhereConcat(a[1..], b, p);
    }
  }

  /** `s.reduce((sum, x) => sum + f(x), 0)`, adding from the left. */
  function Sum<T>(s: seq<T>, f: T -> int): int
    decreases |s|
  {
    if s == [] then 0 else Sum(s[..|s| - 1], f) + f(s[|s| - 1])
  }

  /** A sum over two pieces is the sum of the pieces' sums. */
  lemma {:induction false} SumConcat<T>(a: seq<T>, b: seq<T>, f: T -> int)
    ensures Sum(a + b, f) == Sum(a, f) + Sum(b, f)
    decreases |b|
  {
    if b == [] {
      assert a + b == a;
    } else {
      assert (a + b)[..|a + b| - 1] == a + b[..|b| - 1];
      SumConcat(a, b[..|b| - 1], f);
    }
  }

  /** Terms that are never negative add up to a sum that is not negative. */
  lemma {:induction false} SumNonNegative<T>(s: seq<T>, f: T -> int)
    requires forall i :: 0 <= i < |s| ==> f(s[i]) >= 0
    ensures Sum(s, f) >= 0
    decreases |s|
  {
    if s != [] {
      SumNonNegative(s[..|s| - 1], f);
    }
  }

  /** Summing `f` over the elements `p` keeps is summing over all of them with 0 for the others. */
  lemma {:induction false} SumWhere<T>(s: seq<T>, p: T -> bool, f: T -> int, g: T -> int)
    requires forall x :: g(x) == if p(x) then f(x) else 0
    ensures Sum(Where(s, p), f) == Sum(s, g)
    decreases |s|
  {
    if s != [] {
      var init, last := s[..|s| - 1], s[|s| - 1];
      assert s == init + [last];
      WhereConcat(init, [last], p);
      SumConcat(Where(init, p), Where([last], p), f);
      SumWhere(init, p, f, g);
      assert Where([last], p) == if p(last) then [last] else [];
      assert Sum([last], f) == f(last) by { assert [last][..0] == []; }
    }
  }

  /** Sums of two term-wise functions add term-wise. */
  lemma {:induction false} SumAdd<T>(s: seq<T>, f: T -> int, g: T -> int, h: T -> int)
    requires forall x :: h(x) == f(x) + g(x)
    ensures Sum(s, f) + Sum(s, g) == Sum(s, h)
    decreases |s|
  {
    if s != [] {
      SumAdd(s[..|s| - 1], f, g, h);
    }
  }

  /** Three pairwise disjoint filters together keep no more than the whole sequence. */
  lemma {:induction false} CountDisjoint3<T>(s: seq<T>, p: T -> bool, q: T -> bool, r: T -> bool)
    requires forall x :: !(p(x) && q(x)) && !(p(x) && r(x)) && !(q(x) && r(x))
    ensures Count(s, p) + Count(s, q) + Count(s, r) <= |s|
  {
    if s != [] {
      CountDisjoint3(s[1..], p, q, r);
    }
  }

  /**
   * `s.slice(start, end)`: negative positions count from the end, and both are
   * clamped to `[0, |s|]`.
   */
  function Slice<T>(s: seq<T>, start: int, end: int): seq<T> {
    var from := Clamp(if start < 0 then |s| + start else start, |s|);
    var to := Clamp(if end < 0 then |s| + end else end, |s|);
    if from < to then s[from..to] else []
  }

  function Clamp(i: int, n: nat): (r: nat)
    ensures r <= n
  {
    if i < 0 then 0 else if i > n then n else i
  }

  function Min(a: int, b: int): int { if a <= b then a else b }

  function Max(a: int, b: int): int { if a >= b then a else b }
}
